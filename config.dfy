/** Choosing and loading the configuration file (config/config.go). The
    YAML reader is the oracle `read`, which reports how reading a given
    file went. */
module Config {
  import opened Wrappers
  import opened Text

  const DockerConfigPath: string := "config/docker-config.yml"
  const LocalConfigPath: string := "config/config-local.yml"

  /** `GetConfigPath`: the Docker file for the `docker` environment, the
      local file for any other. */
  function GetConfigPath(env: string): (path: string)
    ensures path == DockerConfigPath <==> env == "docker"
    ensures path == DockerConfigPath || path == LocalConfigPath
  {
    if env == "docker" then DockerConfigPath else LocalConfigPath
  }

  predicate HasYamlSuffix(path: string) {
    HasSuffix(path, ".yml") || HasSuffix(path, ".yaml")
  }

  /** The extension check of `LoadConfig`: `.yml` is appended to a path
      that ends in neither `.yml` nor `.yaml`. */
  function NormalizePath(path: string): (result: string)
    ensures HasYamlSuffix(result)
    ensures HasYamlSuffix(path) ==> result == path
    ensures !HasYamlSuffix(path) ==> result == path + ".yml"
  {
    if !HasSuffix(path, ".yml") && !HasSuffix(path, ".yaml") then
      HasSuffixOfAppend(path, ".yml");
      path + ".yml"
    else path
  }

  /** Normalising twice is normalising once. */
  lemma NormalizeIdempotent(path: string)
    ensures NormalizePath(NormalizePath(path)) == NormalizePath(path)
  {
  }

  /** Both files `GetConfigPath` can choose are loaded under their own
      names. */
  lemma ConfigPathsAreNormal(env: string)
    ensures NormalizePath(GetConfigPath(env)) == GetConfigPath(env)
  {
    var path := GetConfigPath(env);
    assert path[|path| - 4..] == ".yml";
  }

  /** How reading a file failed: viper's `ConfigFileNotFoundError`, or any
      other error with its message. Because the file is named with
      `SetConfigFile`, viper reads it directly and a missing file comes back
      as a path error, that is as `Unreadable`; `NotFound` is the branch the
      code is written for, which viper does not take in that mode. */
  datatype ReadError = NotFound | Unreadable(message: string)

  /** `LoadConfig`: the normalised path is read; success yields the path
      that was loaded, a `ConfigFileNotFoundError` would be reported under
      that path, and any other error (a missing file among them) is passed
      through unchanged. */
  function LoadConfig(path: string, read: string -> Option<ReadError>): (r: Result<string, string>)
    ensures var file := NormalizePath(path);
      && (read(file).None? <==> r.Ok?)
      && (r.Ok? ==> r.value == file)
      && (read(file) == Some(NotFound) ==> r == Err("config file not found: " + file))
      && (read(file).Some? && read(file).value.Unreadable? ==> r == Err(read(file).value.message))
  {
    var file := NormalizePath(path);
    match read(file)
    case None => Ok(file)
    case Some(NotFound) => Err("config file not found: " + file)
    case Some(Unreadable(message)) => Err(message)
  }

  /** A path without an extension is looked up with `.yml` appended: the
      not-found branch, were viper to take it, names the `.yml` path. */
  lemma LoadAppendsYml(path: string, read: string -> Option<ReadError>)
    requires !HasYamlSuffix(path)
    requires read(path + ".yml") == Some(NotFound)
    ensures LoadConfig(path, read) == Err("config file not found: " + path + ".yml")
  {
    assert "config file not found: " + (path + ".yml") == "config file not found: " + path + ".yml";
  }
}
