/** The managers of managers.py: the Redis manager's bind, whose probe is
    the one of the later managers (Managers.IsOk), and the fake manager. */
module LegacyManagers {
  import opened Environment
  import LegacyConfig

  /** What an application bound to the shared server must receive: the
      public host when set and non-empty, else the server; the configured
      port when set and non-empty, else 6379; the password exactly when it is
      set and non-empty; no other variable. */
  ghost predicate ExpectedBindVars(env: Env, server: string, vars: map<string, string>)
  {
    && vars.Keys == {"REDIS_HOST", "REDIS_PORT"} + (if IsSet(env, PasswordVar) then {"REDIS_PASSWORD"} else {})
    && vars["REDIS_HOST"] == (if IsSet(env, PublicHostVar) then env[PublicHostVar] else server)
    && vars["REDIS_PORT"] == (if IsSet(env, ServerPortVar) then env[ServerPortVar] else DefaultPort)
    && (IsSet(env, PasswordVar) ==> vars["REDIS_PASSWORD"] == env[PasswordVar])
  }

  /** RedisManager.bind. */
  function BindVars(env: Env, server: string): (vars: map<string, string>)
    ensures ExpectedBindVars(env, server, vars)
  {
    var host := LegacyConfig.Coalesce(env, server, [PublicHostVar]);
    var port := LegacyConfig.Coalesce(env, DefaultPort, [ServerPortVar]);
    var result := map["REDIS_HOST" := host, "REDIS_PORT" := port];
    if IsSet(env, PasswordVar) then result["REDIS_PASSWORD" := env[PasswordVar]] else result
  }

  /** The fake manager's flags, read together. */
  datatype FakeState = FakeState(instanceAdded: bool, binded: bool, unbinded: bool,
                                 removed: bool, ok: bool, msg: string)

  class FakeManager {
    var instanceAdded: bool
    var binded: bool
    var unbinded: bool
    var removed: bool
    var ok: bool
    var msg: string

    function State(): FakeState
      reads this
    {
      FakeState(instanceAdded, binded, unbinded, removed, ok, msg)
    }

    constructor ()
      ensures State() == FakeState(false, false, false, false, false, "error")
    {
      instanceAdded, binded, unbinded, removed := false, false, false, false;
      ok, msg := false, "error";
    }

    method AddInstance()
      modifies this
      ensures State() == old(State()).(instanceAdded := true)
    {
      instanceAdded := true;
    }

    method Bind()
      modifies this
      ensures State() == old(State()).(binded := true)
    {
      binded := true;
    }

    method Unbind()
      modifies this
      ensures State() == old(State()).(unbinded := true)
    {
      unbinded := true;
    }

    method Remove()
      modifies this
      ensures State() == old(State()).(removed := true)
    {
      removed := true;
    }

    method IsOk() returns (r: (bool, string))
      ensures r == (State().ok, State().msg)
    {
      r := (ok, msg);
    }
  }
}
