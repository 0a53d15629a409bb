/**
 * The typed environment accessors of the rate limiter. The process environment
 * is a map from variable name to value, so `os.LookupEnv` is a map lookup. Each
 * accessor returns a `(value, ok)` pair where `ok` is false, and the value is the
 * type's zero, whenever the variable is unset, set to the empty string, or does
 * not parse: absence can always be told apart from a real zero.
 */
module Env {
  import opened Wrappers
  import opened Strconv

  type Environment = map<string, string>

  /** `os.LookupEnv`. */
  function LookupEnv(env: Environment, key: string): Option<string>
  {
    if key in env then Some(env[key]) else None
  }

  /** `getStringEnv`: an unset or empty variable is `("", false)`. */
  function GetStringEnv(env: Environment, key: string): (r: (string, bool))
    ensures r.1 <==> key in env && env[key] != ""
    ensures r.1 ==> r.0 == env[key]
    ensures r.1 <==> r.0 != ""
  {
    match LookupEnv(env, key)
    case None => ("", false)
    case Some(value) =>
      if value == "" then ("", false)
      else (value, true)
  }

  /** `getBoolEnv`: an unset, empty or unparsable variable is `(false, false)`. */
  function GetBoolEnv(env: Environment, key: string): (r: (bool, bool))
    ensures r.1 <==> key in env && env[key] in TrueSpellings + FalseSpellings
    ensures r.1 ==> (r.0 <==> env[key] in TrueSpellings)
    ensures !r.1 ==> !r.0
  {
    match LookupEnv(env, key)
    case None => (false, false)
    case Some(value) =>
      if value == "" then (false, false)
      else
        match ParseBool(value)
        case Err(_) => (false, false)
        case Ok(parsed) => (parsed, true)
  }

  /**
   * `getInt64Env`: an unset, empty, non-decimal or out-of-range variable is
   * `(0, false)`; otherwise the int64 its decimal text denotes.
   */
  function GetInt64Env(env: Environment, key: string): (r: (int64, bool))
    ensures r.1 <==> key in env && IsDecimal(env[key]) && InInt64(DecimalValue(env[key]))
    ensures r.1 ==> r.0 as int == DecimalValue(env[key])
    ensures !r.1 ==> r.0 == 0
  {
    match LookupEnv(env, key)
    case None => (0, false)
    case Some(value) =>
      ParseIntMeaning(value);
      if value == "" then (0, false)
      else
        match ParseInt(value)
        case Err(_) => (0, false)
        case Ok(parsed) => (parsed, true)
  }

  /**
   * The typed accessors are the string accessor followed by a parse: the
   * explicit empty-string test in each is already implied by the parser, which
   * rejects the empty string.
   */
  lemma TypedAccessorsParseStringAccessor(env: Environment, key: string)
    ensures var (s, present) := GetStringEnv(env, key);
      && GetBoolEnv(env, key) == (if present && ParseBool(s).Ok? then (ParseBool(s).value, true) else (false, false))
      && GetInt64Env(env, key) == (if present && ParseInt(s).Ok? then (ParseInt(s).value, true) else (0, false))
  {
  }

  /** Setting a variable to the decimal rendering of an int64 reads back that int64. */
  lemma GetInt64EnvRoundTrip(env: Environment, key: string, n: int64)
    ensures GetInt64Env(env[key := FormatInt(n as int)], key) == (n, true)
  {
    ParseFormatInt(n as int);
  }

  /** The decimal rendering of an integer outside int64 reads as absent. */
  lemma GetInt64EnvOutOfRange(env: Environment, key: string, z: int)
    requires !InInt64(z)
    ensures GetInt64Env(env[key := FormatInt(z)], key) == (0, false)
  {
    ParseFormatInt(z);
  }

  /** Setting a variable to `"true"` or `"false"` reads back that boolean. */
  lemma GetBoolEnvRoundTrip(env: Environment, key: string, b: bool)
    ensures GetBoolEnv(env[key := FormatBool(b)], key) == (b, true)
  {
    ParseFormatBool(b);
  }

  /** The concrete settings `getStringEnv` is exercised with. */
  lemma StringAccessorExamples()
    ensures GetStringEnv(map["MY_ENV" := "ENV_VALUE"], "MY_ENV") == ("ENV_VALUE", true)
    ensures GetStringEnv(map["MY_ENV" := "ENV_VALUE"], "MY_ANOTHER_ENV") == ("", false)
    ensures GetStringEnv(map["MY_ENV" := ""], "MY_ENV") == ("", false)
  {
  }

  /** The concrete settings `getBoolEnv` is exercised with. */
  lemma BoolAccessorExamples()
    ensures GetBoolEnv(map["MY_ENV" := "true"], "MY_ENV") == (true, true)
    ensures GetBoolEnv(map["MY_ENV" := "false"], "MY_ENV") == (false, true)
    ensures GetBoolEnv(map["MY_ENV" := "false"], "MY_ANOTHER_ENV") == (false, false)
    ensures GetBoolEnv(map["MY_ENV" := ""], "MY_ENV") == (false, false)
    ensures GetBoolEnv(map["MY_ENV" := "NOT_A_BOOL"], "MY_ENV") == (false, false)
  {
  }

  /** The concrete settings `getInt64Env` is exercised with. */
  lemma Int64AccessorExamples()
    ensures GetInt64Env(map["MY_ENV" := "567"], "MY_ENV") == (567, true)
    ensures GetInt64Env(map["MY_ENV" := "567"], "MY_ANOTHER_ENV") == (0, false)
    ensures GetInt64Env(map["MY_ENV" := ""], "MY_ENV") == (0, false)
    ensures GetInt64Env(map["MY_ENV" := "NOT_A_INT64"], "MY_ENV") == (0, false)
  {
    GetInt64EnvRoundTrip(map[], "MY_ENV", 567);
  }
}
