/** Configuration read by the single-file service of managers.py and
    redisapi.py (the two files carry the same code for it): the required
    server variable, read when the module loads, and coalesce, which takes
    the first variable holding a non-empty value. */
module LegacyConfig {
  import opened Wrappers
  import opened Environment

  const ServerMissing := "You must define the REDIS_SERVER_HOST environment variable."

  /** The module-level `server`, or the exception that aborts the import. */
  function ServerSetting(env: Env): (r: Result<string>)
    ensures r.Success? <==> ServerHostVar in env
    ensures r.Success? ==> r.value == env[ServerHostVar]
    ensures r.Failure? ==> r.error == ServerMissing
  {
    if ServerHostVar in env then Success(env[ServerHostVar]) else Failure(ServerMissing)
  }

  /** The older message is the later one for the server variable. */
  lemma ServerMissingMessage()
    ensures ServerMissing == MissingMessage("REDIS_SERVER_HOST")
  {
  }

  /** The older service fails exactly as the later get_value does. */
  lemma ServerSettingIsGetValue(env: Env)
    ensures ServerSetting(env) == GetValue(env, ServerHostVar)
  {
    ServerMissingMessage();
    assert ServerHostVar == "REDIS_SERVER_HOST";
  }

  /** coalesce(default, *names): the value of the first listed variable that
      is present and non-empty, scanning in order; the default when there is
      none, including when no variable is listed. */
  function Coalesce(env: Env, default: string, names: seq<string>): (r: string)
    ensures (forall i :: 0 <= i < |names| ==> !IsSet(env, names[i])) ==> r == default
    ensures forall i ::
      (0 <= i < |names| && IsSet(env, names[i]) && forall j :: 0 <= j < i ==> !IsSet(env, names[j]))
      ==> r == env[names[i]]
  {
    if names == [] then default
    else if IsSet(env, names[0]) then env[names[0]]
    else
      var rest := Coalesce(env, default, names[1..]);
      assert forall i :: 1 <= i < |names| ==> names[i] == names[1..][i - 1];
      rest
  }

  /** coalesce and os.environ.get with a default disagree exactly on a
      variable that is present but empty, when the default is not empty:
      coalesce falls back to the default, get returns the empty value. */
  lemma CoalesceVersusGet(env: Env, default: string, key: string)
    ensures Coalesce(env, default, [key]) != GetOr(env, key, default)
            <==> key in env && env[key] == "" && default != ""
  {
    if IsSet(env, key) {
      assert Coalesce(env, default, [key]) == env[key];
    } else {
      assert Coalesce(env, default, [key]) == default;
    }
  }
}
