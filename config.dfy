/**
 * `LoadConfig` and `getEnvOrDefault`. The process environment (after `godotenv.Load` has merged
 * app.env into it) is the map `env`; `os.Getenv` yields "" for an unset variable, so unset and
 * empty read alike. Whether app.env could be loaded is the parameter `envFileLoaded`.
 */
module Config {
  import opened Wrappers
  import opened GoStrings

  const DefaultMaxRecipes: int := 50

  /** The application configuration. */
  datatype Config = Config(
    telegramToken: string,
    openAIAPIKey: string,
    postgresURI: string,
    logLevel: string,
    appEnvironment: string,
    maxRecipesPerUser: int)

  datatype ConfigError = EnvFileMissing

  /** os.Getenv. */
  function Getenv(env: map<string, string>, key: string): string {
    if key in env then env[key] else ""
  }

  /** getEnvOrDefault: the variable's value when non-empty, the default otherwise. */
  function GetEnvOrDefault(env: map<string, string>, key: string, defaultValue: string): (r: string)
    ensures key in env && env[key] != "" ==> r == env[key]
    ensures key !in env || env[key] == "" ==> r == defaultValue
    ensures defaultValue != "" ==> r != ""
  {
    var value := Getenv(env, key);
    if value != "" then value else defaultValue
  }

  /**
   * The MAX_RECIPES_PER_USER rule: 50 unless the variable holds an int that strconv.Atoi
   * accepts without error and that is positive, in which case that number. Always positive.
   */
  function MaxRecipesPerUser(env: map<string, string>): (r: int)
    ensures r > 0
    ensures r == DefaultMaxRecipes || (Atoi(Getenv(env, "MAX_RECIPES_PER_USER")).ok && r == Atoi(Getenv(env, "MAX_RECIPES_PER_USER")).value)
  {
    var maxRecipes := DefaultMaxRecipes;
    var maxStr := Getenv(env, "MAX_RECIPES_PER_USER");
    if maxStr != "" then
      var parsed := Atoi(maxStr);
      if parsed.ok && parsed.value > 0 then parsed.value else maxRecipes
    else maxRecipes
  }

  /** LoadConfig: fails only when app.env cannot be loaded; the list limit is always positive. */
  function LoadConfig(envFileLoaded: bool, env: map<string, string>): (r: Result<Config, ConfigError>)
    ensures r.Ok? <==> envFileLoaded
    ensures r.Ok? ==> r.value.maxRecipesPerUser > 0
    ensures r.Ok? ==> r.value.logLevel != "" && r.value.appEnvironment != ""
  {
    if !envFileLoaded then Err(EnvFileMissing)
    else
      Ok(Config(
        telegramToken := Getenv(env, "TELEGRAM_TOKEN"),
        openAIAPIKey := Getenv(env, "OPENAI_API_KEY"),
        postgresURI := Getenv(env, "POSTGRES_URI"),
        logLevel := GetEnvOrDefault(env, "LOG_LEVEL", "info"),
        appEnvironment := GetEnvOrDefault(env, "APP_ENVIRONMENT", "development"),
        maxRecipesPerUser := MaxRecipesPerUser(env)))
  }

  /** An unset or empty MAX_RECIPES_PER_USER gives 50. */
  lemma MaxRecipesUnset(env: map<string, string>)
    requires "MAX_RECIPES_PER_USER" !in env || env["MAX_RECIPES_PER_USER"] == ""
    ensures MaxRecipesPerUser(env) == 50
  {
  }

  /** A value that is not an int (or lies outside the int64 range), or is not positive, gives 50. */
  lemma MaxRecipesRejected(env: map<string, string>)
    requires "MAX_RECIPES_PER_USER" in env
    requires var p := ParseDecimal(env["MAX_RECIPES_PER_USER"]);
      p.None? || p.value <= 0 || p.value > MaxInt64
    ensures MaxRecipesPerUser(env) == 50
  {
  }

  /** A positive int64 value is used as it is. */
  lemma MaxRecipesAccepted(env: map<string, string>, n: int)
    requires 0 < n <= MaxInt64
    requires "MAX_RECIPES_PER_USER" in env && env["MAX_RECIPES_PER_USER"] == Itoa(n)
    ensures MaxRecipesPerUser(env) == n
  {
    AtoiItoa(n);
  }

  /** Any syntactically valid positive int64, even with a '+' sign or leading zeros, is used. */
  lemma MaxRecipesParsed(env: map<string, string>)
    requires "MAX_RECIPES_PER_USER" in env
    requires var p := ParseDecimal(env["MAX_RECIPES_PER_USER"]); p.Some? && 0 < p.value <= MaxInt64
    ensures MaxRecipesPerUser(env) == ParseDecimal(env["MAX_RECIPES_PER_USER"]).value
  {
  }
}
