/** The HTTP handlers of redisapi.py, as the (body, status code) pairs they
    return; routing and JSON encoding are left to the framework. */
module LegacyApp {
  import opened Wrappers
  import opened Environment
  import LegacyManagers
  import Managers

  datatype Body = Text(text: string) | Vars(vars: map<string, string>)
  datatype Reply = Reply(body: Body, code: int)

  /** POST /resources/<name>: the connection variables, status 201. */
  function Bind(env: Env, server: string, name: string): (r: Reply)
    ensures r.code == 201 && r.body.Vars?
    ensures LegacyManagers.ExpectedBindVars(env, server, r.body.vars)
  {
    Reply(Vars(LegacyManagers.BindVars(env, server)), 201)
  }

  /** DELETE /resources/<name>/hostname/<host>. */
  function Unbind(name: string, host: string): (r: Reply)
    ensures r == Reply(Text(""), 200)
  {
    Reply(Text(""), 200)
  }

  /** POST /resources. */
  function AddInstance(): (r: Reply)
    ensures r == Reply(Text(""), 201)
  {
    Reply(Text(""), 201)
  }

  /** DELETE /resources/<name>. */
  function RemoveInstance(name: string): (r: Reply)
    ensures r == Reply(Text(""), 200)
  {
    Reply(Text(""), 200)
  }

  /** GET /resources/<name>/status: connects with the server as the only
      argument; 204 when that works, otherwise the connection error escapes
      the handler. */
  function Status(server: string, name: string, connect: map<string, string> -> Managers.ConnectOutcome): (r: Result<Reply>)
    ensures r.Success? <==> connect(map["host" := server]) == Managers.Connected
    ensures r.Success? ==> r.value == Reply(Text(""), 204)
    ensures r.Failure? ==> r.error == connect(map["host" := server]).message
  {
    match connect(map["host" := server])
    case Connected => Success(Reply(Text(""), 204))
    case ConnectFailed(e) => Failure(e)
  }

  /** The bind reply does not depend on the instance name. */
  lemma BindIgnoresName(env: Env, server: string, a: string, b: string)
    ensures Bind(env, server, a) == Bind(env, server, b)
  {
  }

  /** Where the two revisions agree: with the public host and port each
      absent or non-empty and no password, the later shared manager's
      add-then-bind hands out what this handler returns. */
  lemma {:induction false} SharedBindMatchesHandler(env: Env, server: string, name: string)
    requires PublicHostVar !in env || IsSet(env, PublicHostVar)
    requires ServerPortVar !in env || IsSet(env, ServerPortVar)
    requires !IsSet(env, PasswordVar)
    ensures Managers.Bind(Managers.SharedManager(server).AddInstance(env, name).record)
            == Bind(env, server, name).body.vars
  {
    var later := Managers.Bind(Managers.SharedManager(server).AddInstance(env, name).record);
    var here := Bind(env, server, name).body.vars;
    assert later.Keys == here.Keys;
    assert later["REDIS_HOST"] == here["REDIS_HOST"];
    assert later["REDIS_PORT"] == here["REDIS_PORT"];
  }

  /** Where they differ: a present but empty public host is handed out as
      the empty host by the later manager, and replaced by the server here. */
  lemma EmptyPublicHostDiffers(env: Env, server: string, name: string)
    requires PublicHostVar in env && env[PublicHostVar] == ""
    requires server != ""
    ensures Managers.Bind(Managers.SharedManager(server).AddInstance(env, name).record)["REDIS_HOST"] == ""
    ensures Bind(env, server, name).body.vars["REDIS_HOST"] == server
  {
  }
}
