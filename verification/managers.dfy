/** The managers of redisapi/managers.py: the shared-server manager, the
    bind of the container manager, the fake manager used in tests, and the
    registry that names them. */
module Managers {
  import opened Wrappers
  import opened Environment
  import Storage

  /** What redis.Connection(**kwargs).connect() did: connected, or raised an
      exception whose text is given. */
  datatype ConnectOutcome = Connected | ConnectFailed(message: string)

  /** The Instance the managers build: the storage record and a plan. The
      storage constructor has no plan parameter (see README, Findings), so the
      plan is kept beside the record. */
  datatype PlannedInstance = PlannedInstance(record: Storage.Instance, plan: string)

  /** Keyword arguments of redis.Connection: the server, and the password
      when the password variable holds a non-empty value. */
  function ConnectArgs(server: string, env: Env): (kw: map<string, string>)
    ensures "host" in kw && kw["host"] == server
    ensures "password" in kw <==> IsSet(env, PasswordVar)
    ensures "password" in kw ==> kw["password"] == env[PasswordVar]
    ensures kw.Keys <= {"host", "password"}
  {
    var kw := map["host" := server];
    if IsSet(env, PasswordVar) then kw["password" := env[PasswordVar]] else kw
  }

  /** Health probe: (True, "") when the connection opens, (False, its error
      text verbatim) when it raises. `connect` stands for the live
      connection attempt made with the given keyword arguments. */
  function IsOk(server: string, env: Env, connect: map<string, string> -> ConnectOutcome): (r: (bool, string))
    ensures r.0 <==> connect(ConnectArgs(server, env)) == Connected
    ensures r.0 ==> r.1 == ""
    ensures !r.0 ==> r.1 == connect(ConnectArgs(server, env)).message
  {
    match connect(ConnectArgs(server, env))
    case Connected => (true, "")
    case ConnectFailed(e) => (false, e)
  }

  /** The environment variables handed to an application bound to the
      instance: its host and port, and nothing else. */
  function Bind(instance: Storage.Instance): (vars: map<string, string>)
    ensures vars.Keys == {"REDIS_HOST", "REDIS_PORT"}
    ensures vars["REDIS_HOST"] == instance.host && vars["REDIS_PORT"] == instance.port
  {
    map["REDIS_HOST" := instance.host, "REDIS_PORT" := instance.port]
  }

  /** SharedManager: every instance lives on the one configured server. */
  datatype SharedManager = SharedManager(server: string)
  {
    /** SharedManager(): reads the required server variable or raises. */
    static function New(env: Env): (r: Result<SharedManager>)
      ensures r.Success? <==> ServerHostVar in env
      ensures r.Success? ==> r.value.server == env[ServerHostVar]
      ensures r.Failure? ==> r.error == MissingMessage(ServerHostVar)
    {
      match GetValue(env, ServerHostVar)
      case Success(server) => Success(SharedManager(server))
      case Failure(e) => Failure(e)
    }

    /** The instance add_instance builds, with the plan beside the record:
        the public-host variable when present (even empty), else the
        server; the port variable when present, else 6379. */
    function AddInstance(env: Env, name: string): (i: PlannedInstance)
      ensures i.record.name == name && i.plan == "development" && i.record.containerId == ""
      ensures i.record.host == (if PublicHostVar in env then env[PublicHostVar] else server)
      ensures i.record.port == (if ServerPortVar in env then env[ServerPortVar] else DefaultPort)
    {
      var host := GetOr(env, PublicHostVar, server);
      var port := GetOr(env, ServerPortVar, DefaultPort);
      PlannedInstance(Storage.Instance(host, "", port, name), "development")
    }

    /** The constructor call exactly as add_instance writes it: keyword
        arguments name, host, port, plan and container_id. */
    function AddInstanceAsWritten(env: Env, name: string): (r: Result<Storage.Instance>)
      ensures r.Failure?
    {
      var host := GetOr(env, PublicHostVar, server);
      var port := GetOr(env, ServerPortVar, DefaultPort);
      var kw := map["name" := name, "host" := host, "port" := port,
                    "plan" := "development", "container_id" := ""];
      assert "plan" in kw.Keys - Storage.Parameters;
      Storage.FromKeywords(kw)
    }
  }

  /** As written, add_instance always raises: the storage constructor has no
      plan parameter. */
  lemma AddInstanceAsWrittenRaises(m: SharedManager, env: Env, name: string)
    ensures m.AddInstanceAsWritten(env, name) == Failure(Storage.UnexpectedKeyword)
  {
    var kw := map["name" := name, "host" := GetOr(env, PublicHostVar, m.server),
                  "port" := GetOr(env, ServerPortVar, DefaultPort),
                  "plan" := "development", "container_id" := ""];
    assert "plan" in kw.Keys;
  }

  /** Without the plan keyword the same call succeeds and builds the record
      the corrected AddInstance returns. */
  lemma AddInstanceWithoutPlan(m: SharedManager, env: Env, name: string)
    ensures var i := m.AddInstance(env, name).record;
      Storage.FromKeywords(map["name" := name, "host" := i.host, "port" := i.port,
                               "container_id" := ""]) == Success(i)
  {
    var i := m.AddInstance(env, name).record;
    var kw := map["name" := name, "host" := i.host, "port" := i.port, "container_id" := ""];
    assert kw.Keys == {"host", "container_id", "port", "name"};
  }

  /** Binding a freshly added shared instance hands out the server's public
      address and never a password. */
  lemma SharedBindAfterAdd(m: SharedManager, env: Env, name: string)
    ensures var vars := Bind(m.AddInstance(env, name).record);
      && "REDIS_PASSWORD" !in vars
      && vars["REDIS_HOST"] == GetOr(env, PublicHostVar, m.server)
      && vars["REDIS_PORT"] == GetOr(env, ServerPortVar, DefaultPort)
  {
  }

  /** The fake manager's flags, read together. */
  datatype FakeState = FakeState(instanceAdded: bool, binded: bool, unbinded: bool,
                                 removed: bool, ok: bool, msg: string)

  class FakeManager {
    var instanceAdded: bool
    var binded: bool
    var unbinded: bool
    var removed: bool
    var ok: bool
    var msg: string

    function State(): FakeState
      reads this
    {
      FakeState(instanceAdded, binded, unbinded, removed, ok, msg)
    }

    constructor ()
      ensures State() == FakeState(false, false, false, false, false, "error")
    {
      instanceAdded, binded, unbinded, removed := false, false, false, false;
      ok, msg := false, "error";
    }

    method AddInstance(name: string)
      modifies this
      ensures State() == old(State()).(instanceAdded := true)
    {
      instanceAdded := true;
    }

    method Bind(instance: Storage.Instance)
      modifies this
      ensures State() == old(State()).(binded := true)
    {
      binded := true;
    }

    method Unbind()
      modifies this
      ensures State() == old(State()).(unbinded := true)
    {
      unbinded := true;
    }

    method RemoveInstance(instance: Storage.Instance)
      modifies this
      ensures State() == old(State()).(removed := true)
    {
      removed := true;
    }

    /** The (ok, msg) pair the test sets up. */
    method IsOk() returns (r: (bool, string))
      ensures r == (State().ok, State().msg)
    {
      r := (ok, msg);
    }
  }

  /** The `managers` registry. */
  datatype ManagerKind = Shared | Fake | Docker

  function ManagerFor(name: string): (r: Option<ManagerKind>)
    ensures r == Some(Shared) <==> name == "shared"
    ensures r == Some(Fake) <==> name == "fake"
    ensures r == Some(Docker) <==> name == "docker"
    ensures r == None <==> name !in {"shared", "fake", "docker"}
  {
    if name == "shared" then Some(Shared)
    else if name == "fake" then Some(Fake)
    else if name == "docker" then Some(Docker)
    else None
  }
}
