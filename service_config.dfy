/**
 * The service configuration: the database connection string built from the
 * environment, and the location of the saved model of each park.
 */
module ServiceConfig {
  import opened Wrappers

  const ModelDir := "models"
  const ModelFilePrefix := "prophet_model"
  const UrlScheme := "postgresql+psycopg://"
  const ApiVersion := "1.0.0"

  /** The five `os.getenv` results the connection string is built from; an unset variable is None. */
  datatype Environment = Environment(
    host: Option<string>,
    port: Option<string>,
    name: Option<string>,
    user: Option<string>,
    password: Option<string>)

  /** How an f-string renders an `os.getenv` result: an unset variable prints as `None`. */
  function EnvText(v: Option<string>): (s: string)
    ensures v.Some? ==> s == v.value
    ensures v.None? ==> s == "None"
  {
    match v
    case Some(text) => text
    case None => "None"
  }

  /** The `database_url` property. */
  function DatabaseUrl(env: Environment): string {
    UrlScheme + EnvText(env.user) + ":" + EnvText(env.password)
    + "@" + EnvText(env.host) + ":" + EnvText(env.port) + "/" + EnvText(env.name)
  }

  /** The connection string always starts with the driver scheme. */
  lemma DatabaseUrlPrefix(env: Environment)
    ensures |UrlScheme| <= |DatabaseUrl(env)|
    ensures DatabaseUrl(env)[..|UrlScheme|] == UrlScheme
  {
    var rest := EnvText(env.user) + ":" + EnvText(env.password)
      + "@" + EnvText(env.host) + ":" + EnvText(env.port) + "/" + EnvText(env.name);
    assert DatabaseUrl(env) == UrlScheme + rest;
  }

  /** The connection string always ends with '/' and the database name. */
  lemma DatabaseUrlSuffix(env: Environment)
    ensures |EnvText(env.name)| < |DatabaseUrl(env)|
    ensures DatabaseUrl(env)[|DatabaseUrl(env)| - |EnvText(env.name)| - 1..] == "/" + EnvText(env.name)
  {
    var front := UrlScheme + EnvText(env.user) + ":" + EnvText(env.password)
      + "@" + EnvText(env.host) + ":" + EnvText(env.port);
    assert DatabaseUrl(env) == front + ("/" + EnvText(env.name));
  }

  /** `os.path.join(directory, name)` on POSIX. */
  function PathJoin(directory: string, name: string): (path: string)
    ensures |name| <= |path|
    ensures |name| > 0 && name[0] != '/' ==> path[|path| - |name|..] == name
  {
    if |name| > 0 && name[0] == '/' then name
    else if directory == [] || directory[|directory| - 1] == '/' then directory + name
    else directory + "/" + name
  }

  /** The file name of the saved model of a park. */
  function ModelFileName(parkId: string): (name: string)
    ensures |name| > 0 && name[0] == 'p'
  {
    ModelFilePrefix + "_" + parkId + ".joblib"
  }

  /** Where `save_model(model_dir)` writes the model of a park. */
  function ModelPath(directory: string, parkId: string): string {
    PathJoin(directory, ModelFileName(parkId))
  }

  /** The default location of a park's model, spelled out. */
  lemma DefaultModelPath(parkId: string)
    ensures ModelPath(ModelDir, parkId) == "models/prophet_model_" + parkId + ".joblib"
  {
  }

  /** Reading the park back out of a model file name. */
  lemma ModelFileNameInjective(p: string, q: string)
    requires ModelFileName(p) == ModelFileName(q)
    ensures p == q
  {
    var a, b := ModelFileName(p), ModelFileName(q);
    var n := |ModelFilePrefix + "_"|;
    assert a == (ModelFilePrefix + "_") + p + ".joblib";
    assert b == (ModelFilePrefix + "_") + q + ".joblib";
    assert |p| == |q|;
    assert p == a[n..n + |p|];
    assert q == b[n..n + |q|];
  }

  /** Different parks never share a model file in the same directory. */
  lemma ModelPathInjective(directory: string, p: string, q: string)
    requires ModelPath(directory, p) == ModelPath(directory, q)
    ensures p == q
  {
    var a, b := ModelFileName(p), ModelFileName(q);
    var front := if directory == [] || directory[|directory| - 1] == '/' then directory else directory + "/";
    assert ModelPath(directory, p) == front + a;
    assert ModelPath(directory, q) == front + b;
    assert a == (front + a)[|front|..];
    assert b == (front + b)[|front|..];
    ModelFileNameInjective(p, q);
  }
}
