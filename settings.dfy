/**
 * Application settings (`Settings` in config/settings.py): the two field validators that
 * normalise the environment name and the log level, and the derived provider properties.
 * Loading values from the process environment and the `.env` file is not modelled: a
 * settings value is built from already-read fields.
 */
module Configuration {
  import opened Wrappers
  import opened Ascii

  const AllowedEnvironments: set<string> := {"development", "staging", "production", "testing"}
  const AllowedLogLevels: set<string> := {"DEBUG", "INFO", "WARNING", "ERROR", "CRITICAL"}

  /** The fixed start of the validator messages; the rendering of the allowed set follows it. */
  const EnvironmentErrorPrefix := "environment must be one of: "
  const LogLevelErrorPrefix := "log_level must be one of: "

  /** `validate_environment`: accepted when its lower-case form is allowed, which it returns. */
  function ValidateEnvironment(v: string): (r: Result<string, string>)
    ensures r.Success? <==> Lower(v) in AllowedEnvironments
    ensures r.Success? ==> r.value == Lower(v) && r.value in AllowedEnvironments
    ensures r.Failure? ==> r.error == EnvironmentErrorPrefix
  {
    if Lower(v) !in AllowedEnvironments then Failure(EnvironmentErrorPrefix) else Success(Lower(v))
  }

  /** `validate_log_level`: accepted when its upper-case form is allowed, which it returns. */
  function ValidateLogLevel(v: string): (r: Result<string, string>)
    ensures r.Success? <==> Upper(v) in AllowedLogLevels
    ensures r.Success? ==> r.value == Upper(v) && r.value in AllowedLogLevels
    ensures r.Failure? ==> r.error == LogLevelErrorPrefix
  {
    if Upper(v) !in AllowedLogLevels then Failure(LogLevelErrorPrefix) else Success(Upper(v))
  }

  /** Validating an accepted environment again accepts it unchanged. */
  lemma ValidateEnvironmentIdempotent(v: string)
    requires ValidateEnvironment(v).Success?
    ensures ValidateEnvironment(ValidateEnvironment(v).value) == ValidateEnvironment(v)
  {
    LowerIdempotent(v);
  }

  /** Validating an accepted log level again accepts it unchanged. */
  lemma ValidateLogLevelIdempotent(v: string)
    requires ValidateLogLevel(v).Success?
    ensures ValidateLogLevel(ValidateLogLevel(v).value) == ValidateLogLevel(v)
  {
    UpperIdempotent(v);
  }

  /** The fields of `Settings` that the session core reads. */
  datatype Settings = Settings(
    environment: string,
    logLevel: string,
    openaiApiKey: Option<string>,
    openaiBaseUrl: Option<string>,
    anthropicApiKey: Option<string>)
  {
    /** Both validated fields hold normalised, allowed values. */
    predicate WellFormed() {
      environment in AllowedEnvironments && logLevel in AllowedLogLevels
    }

    predicate IsProduction() {
      environment == "production"
    }

    predicate IsDevelopment() {
      environment == "development"
    }

    /** A key counts as configured whenever it is present, even if it is the empty string. */
    predicate HasOpenai() {
      openaiApiKey != None
    }

    predicate HasAnthropic() {
      anthropicApiKey != None
    }

    predicate HasAiProvider() {
      HasOpenai() || HasAnthropic()
    }

    /** `get_preferred_provider`: OpenAI first, then Anthropic, otherwise an error. */
    function GetPreferredProvider(): (r: Result<string, string>)
      ensures r.Failure? <==> !HasAiProvider()
      ensures r == Success("openai") <==> HasOpenai()
      ensures r == Success("anthropic") <==> !HasOpenai() && HasAnthropic()
      ensures r.Failure? ==> r.error == "No AI provider configured"
    {
      if HasOpenai() then Success("openai")
      else if HasAnthropic() then Success("anthropic")
      else Failure("No AI provider configured")
    }
  }

  /**
   * Building a settings value runs both field validators; an invalid field makes construction
   * fail. The error returned here is that of the environment when it is invalid, otherwise that
   * of the log level (the library collects both messages into one error).
   */
  function MakeSettings(environment: string, logLevel: string, openaiApiKey: Option<string>,
                        openaiBaseUrl: Option<string>, anthropicApiKey: Option<string>)
    : (r: Result<Settings, string>)
    ensures r.Success? <==>
      ValidateEnvironment(environment).Success? && ValidateLogLevel(logLevel).Success?
    ensures r.Success? ==> r.value.WellFormed()
    ensures r.Success? ==> r.value.environment == Lower(environment) && r.value.logLevel == Upper(logLevel)
    ensures r.Success? ==>
      && r.value.openaiApiKey == openaiApiKey
      && r.value.openaiBaseUrl == openaiBaseUrl
      && r.value.anthropicApiKey == anthropicApiKey
  {
    match ValidateEnvironment(environment)
    case Failure(e) => Failure(e)
    case Success(env) =>
      match ValidateLogLevel(logLevel)
      case Failure(e) => Failure(e)
      case Success(level) => Success(Settings(env, level, openaiApiKey, openaiBaseUrl, anthropicApiKey))
  }

  /** The class defaults: development, INFO, and no provider keys. */
  function DefaultSettings(): (s: Settings)
    ensures s.WellFormed() && s.IsDevelopment() && !s.IsProduction()
    ensures !s.HasAiProvider() && s.GetPreferredProvider().Failure?
  {
    Settings("development", "INFO", None, None, None)
  }

  /** Production and development exclude each other. */
  lemma NotBothProductionAndDevelopment(s: Settings)
    ensures !(s.IsProduction() && s.IsDevelopment())
  {
    assert "production" != "development" by {
      assert "production"[0] != "development"[0];
    }
  }

  /** The default log level is accepted as it is. */
  lemma DefaultLogLevelAccepted(level: string)
    requires level == "INFO"
    ensures ValidateLogLevel(level) == Success(level)
  {
    assert Upper(level) == level;
  }

  /** An environment is accepted in any spelling of its letters, and lands normalised. */
  lemma EnvironmentCaseInsensitive(v: string, level: string)
    requires Lower(v) == "production" && level == "INFO"
    ensures ValidateEnvironment(v) == Success("production")
    ensures MakeSettings(v, level, None, None, None).Success?
    ensures MakeSettings(v, level, None, None, None).value.IsProduction()
  {
    DefaultLogLevelAccepted(level);
  }
}
