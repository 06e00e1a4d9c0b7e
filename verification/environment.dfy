/** The process environment and the required-variable lookup of
    redisapi/utils.py. The environment is a value handed to every reader,
    so no operation here can change it. */
module Environment {
  import opened Wrappers

  type Env = map<string, string>

  /** The variables redisapi reads, and the port it falls back to. */
  const ServerHostVar := "REDIS_SERVER_HOST"
  const PublicHostVar := "REDIS_PUBLIC_HOST"
  const ServerPortVar := "REDIS_SERVER_PORT"
  const PasswordVar := "REDIS_SERVER_PASSWORD"
  const DefaultPort := "6379"

  /** os.environ.get(key, default). */
  function GetOr(env: Env, key: string, default: string): (r: string)
    ensures key in env ==> r == env[key]
    ensures key !in env ==> r == default
  {
    if key in env then env[key] else default
  }

  /** Python truthiness of os.environ.get(key): present and non-empty. */
  predicate IsSet(env: Env, key: string)
  {
    key in env && env[key] != ""
  }

  /** Message of the exception raised for a missing required variable. */
  function MissingMessage(key: string): string
  {
    "You must define the " + key + " environment variable."
  }

  /** get_value(key): the variable's value, or an exception naming it. */
  function GetValue(env: Env, key: string): (r: Result<string>)
    ensures r.Success? <==> key in env
    ensures r.Success? ==> r.value == env[key]
    ensures r.Failure? ==> r.error == MissingMessage(key)
  {
    if key in env then Success(env[key]) else Failure(MissingMessage(key))
  }
}
