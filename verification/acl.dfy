/** Access control of redisapi/acl.py: the in-memory permit table and the
    requests the ACL API manager sends to its client. The client itself is
    outside the model; the manager keeps the list of calls it received. */
module Acl {
  import opened Wrappers
  import Decimal

  /** The view of an instance these managers use: its name and endpoints. */
  datatype Endpoint = Endpoint(host: string, port: int)
  datatype AclInstance = AclInstance(name: string, endpoints: seq<Endpoint>)

  // ---------------------------------------------------------------------
  // DumbAccessManager: instance name -> client hosts, in grant order.

  type Permits = map<string, seq<string>>

  /** self.permits.get(name), with a missing entry read as no hosts. */
  function Entry(p: Permits, name: string): seq<string>
  {
    if name in p then p[name] else []
  }

  /** Message of the ValueError list.remove raises for an absent host. */
  const NotInList := "list.remove(x): x not in list"

  /** s without its first occurrence of h (list.remove). */
  function RemoveFirst(s: seq<string>, h: string): (r: seq<string>)
    requires h in s
    ensures |r| == |s| - 1
  {
    if s[0] == h then s[1..] else [s[0]] + RemoveFirst(s[1..], h)
  }

  /** Index of the first occurrence of h. */
  function FirstIndex(s: seq<string>, h: string): (i: nat)
    requires h in s
    ensures i < |s| && s[i] == h && h !in s[..i]
  {
    if s[0] == h then 0
    else
      var j := FirstIndex(s[1..], h);
      assert s[..j + 1] == [s[0]] + s[1..][..j];
      j + 1
  }

  /** The table after grant_access(name, host). */
  function Granted(p: Permits, name: string, host: string): (q: Permits)
    ensures q.Keys == p.Keys + {name}
    ensures q[name] == Entry(p, name) + [host]
    ensures forall other :: other in p && other != name ==> q[other] == p[other]
  {
    p[name := Entry(p, name) + [host]]
  }

  /** The table after revoke_access(name, host), or the ValueError. */
  function Revoked(p: Permits, name: string, host: string): (r: Result<Permits>)
    ensures r.Failure? <==> Entry(p, name) != [] && host !in Entry(p, name)
    ensures r.Failure? ==> r.error == NotInList
    ensures r.Success? && Entry(p, name) == [] ==> r.value == p
    ensures r.Success? && Entry(p, name) != [] ==>
      r.value.Keys == p.Keys && r.value[name] == RemoveFirst(p[name], host) &&
      forall other :: other in p && other != name ==> r.value[other] == p[other]
  {
    var hosts := Entry(p, name);
    if hosts == [] then Success(p)
    else if host in hosts then Success(p[name := RemoveFirst(hosts, host)])
    else Failure(NotInList)
  }

  class DumbAccessManager {
    var permits: Permits

    constructor ()
      ensures permits == map[]
    {
      permits := map[];
    }

    /** Appends host to the instance's list, creating the list if needed. */
    method GrantAccess(instance: AclInstance, unitHost: string)
      modifies this
      ensures permits == Granted(old(permits), instance.name, unitHost)
    {
      var hosts := if instance.name in permits then permits[instance.name] else [];
      // a stored empty list is replaced by a fresh one (`if not permits`)
      if hosts == [] {
        hosts := [];
      }
      hosts := hosts + [unitHost];
      permits := permits[instance.name := hosts];
    }

    /** Removes the first occurrence of host from a non-empty list; raises,
        leaving the table as it was, when host is not in that list. */
    method RevokeAccess(instance: AclInstance, unitHost: string) returns (outcome: Outcome)
      modifies this
      ensures match Revoked(old(permits), instance.name, unitHost)
              case Success(q) => outcome == Pass && permits == q
              case Failure(e) => outcome == Fail(e) && permits == old(permits)
    {
      outcome := Pass;
      var hosts := if instance.name in permits then permits[instance.name] else [];
      if hosts != [] {
        if unitHost !in hosts {
          return Fail(NotInList);
        }
        hosts := RemoveFirst(hosts, unitHost);
        permits := permits[instance.name := hosts];
      }
    }
  }

  /** list.remove drops exactly the first occurrence and keeps the rest in
      order. */
  lemma {:induction false} RemoveFirstAt(s: seq<string>, h: string)
    requires h in s
    ensures RemoveFirst(s, h) == s[..FirstIndex(s, h)] + s[FirstIndex(s, h) + 1..]
  {
    if s[0] != h {
      var t := s[1..];
      RemoveFirstAt(t, h);
      var i := FirstIndex(t, h);
      assert FirstIndex(s, h) == i + 1;
      assert s[..i + 1] == [s[0]] + t[..i];
      assert s[i + 2..] == t[i + 1..];
    }
  }

  /** It removes one copy of h and nothing else. */
  lemma {:induction false} RemoveFirstMultiset(s: seq<string>, h: string)
    requires h in s
    ensures multiset(RemoveFirst(s, h)) == multiset(s) - multiset{h}
  {
    assert s == [s[0]] + s[1..];
    if s[0] != h {
      RemoveFirstMultiset(s[1..], h);
    }
  }

  lemma {:induction false} RemoveAppended(s: seq<string>, h: string)
    ensures h !in s ==> RemoveFirst(s + [h], h) == s
    ensures h in s ==> RemoveFirst(s + [h], h) == RemoveFirst(s, h) + [h]
  {
    if s != [] {
      assert (s + [h])[1..] == s[1..] + [h];
      RemoveAppended(s[1..], h);
    }
  }

  /** Revoking on a name without hosts does nothing and creates no entry. */
  lemma RevokeWithoutEntry(p: Permits, name: string, host: string)
    requires name !in p || p[name] == []
    ensures Revoked(p, name, host) == Success(p)
    ensures name !in p ==> name !in Revoked(p, name, host).value
  {
  }

  /** Revoking a host the non-empty list lacks is an error. */
  lemma RevokeAbsentHost(p: Permits, name: string, host: string)
    requires name in p && p[name] != [] && host !in p[name]
    ensures Revoked(p, name, host) == Failure(NotInList)
  {
  }

  /** Grant then revoke of the same host: the instance's hosts come back
      unchanged when the host was not there before; otherwise the first
      earlier occurrence is removed and the host ends up last, so the
      multiset is the same; no other entry is touched. An entry that did
      not exist is left as an empty list. */
  lemma {:induction false} GrantThenRevoke(p: Permits, name: string, host: string)
    ensures Revoked(Granted(p, name, host), name, host).Success?
    ensures var q := Revoked(Granted(p, name, host), name, host).value;
      && q.Keys == p.Keys + {name}
      && (forall other :: other in p && other != name ==> q[other] == p[other])
      && (host !in Entry(p, name) ==> q[name] == Entry(p, name))
      && (host in Entry(p, name) ==> q[name] == RemoveFirst(Entry(p, name), host) + [host])
      && multiset(q[name]) == multiset(Entry(p, name))
  {
    var s := Entry(p, name);
    RemoveAppended(s, host);
    if host in s {
      RemoveFirstMultiset(s, host);
      assert multiset(RemoveFirst(s, host) + [host]) == multiset(s) - multiset{host} + multiset{host};
    }
  }

  // ---------------------------------------------------------------------
  // GloboACLAPIManager: one TCP permit request per endpoint, then a commit.

  datatype L4Opts = L4Opts(operator: string, port: string, target: string)
  datatype PermitRequest = PermitRequest(desc: string, source: string, dest: string, l4Opts: L4Opts)
  datatype PermitOp = AddTcpPermitAccess | RemoveTcpPermitAccess
  datatype ClientCall = Permit(op: PermitOp, request: PermitRequest) | Commit

  /** The request that lets unitHost reach one endpoint of the instance. */
  function Request(name: string, unitHost: string, endpoint: Endpoint): (r: PermitRequest)
    ensures r.source == unitHost + "/32" && r.dest == endpoint.host + "/32"
    ensures r.l4Opts == L4Opts("eq", Decimal.IntText(endpoint.port), "dest")
    ensures r.desc == "redis-api instance \"" + name + "\" access from " + unitHost + "/32 to "
                      + endpoint.host + "/32"
  {
    var source := unitHost + "/32";
    PermitRequest(
      "redis-api instance \"" + name + "\" access from " + source + " to " + endpoint.host + "/32",
      source,
      endpoint.host + "/32",
      L4Opts("eq", Decimal.IntText(endpoint.port), "dest"))
  }

  /** The permit calls, one per endpoint, in endpoint order. */
  function PermitCalls(op: PermitOp, name: string, unitHost: string, endpoints: seq<Endpoint>): (calls: seq<ClientCall>)
    ensures |calls| == |endpoints|
    ensures forall i :: 0 <= i < |endpoints| ==> calls[i] == Permit(op, Request(name, unitHost, endpoints[i]))
  {
    if endpoints == [] then []
    else
      PermitCalls(op, name, unitHost, endpoints[..|endpoints| - 1])
        + [Permit(op, Request(name, unitHost, endpoints[|endpoints| - 1]))]
  }

  lemma PermitCallsStep(op: PermitOp, name: string, unitHost: string, endpoints: seq<Endpoint>, i: nat,
                         earlier: seq<ClientCall>)
    requires i < |endpoints|
    ensures earlier + PermitCalls(op, name, unitHost, endpoints[..i + 1])
         == earlier + PermitCalls(op, name, unitHost, endpoints[..i]) + [Permit(op, Request(name, unitHost, endpoints[i]))]
  {
    assert endpoints[..i + 1][..i] == endpoints[..i];
  }

  /** Everything grant_access (op AddTcpPermitAccess) or revoke_access (op
      RemoveTcpPermitAccess) sends: the permit calls, then one commit. */
  function AccessCalls(op: PermitOp, instance: AclInstance, unitHost: string): seq<ClientCall>
  {
    PermitCalls(op, instance.name, unitHost, instance.endpoints) + [Commit]
  }

  /** The client raises `message` on its call number `at` (counting from 0,
      the commit being call number |endpoints|). Nothing catches it. */
  datatype ClientFailure = ClientFailure(at: nat, message: string)

  /** Whether the failure hits one of the calls actually made. */
  predicate Hits(failure: Option<ClientFailure>, instance: AclInstance)
  {
    failure.Some? && failure.value.at <= |instance.endpoints|
  }

  /** What the client receives: every call up to and including the one that
      raises, or all of them when none raises. */
  function SentCalls(op: PermitOp, instance: AclInstance, unitHost: string,
                     failure: Option<ClientFailure>): seq<ClientCall>
  {
    var calls := AccessCalls(op, instance, unitHost);
    if Hits(failure, instance) then calls[..failure.value.at + 1] else calls
  }

  /** The outcome the caller sees: the client's exception, if one is raised. */
  function SendOutcome(instance: AclInstance, failure: Option<ClientFailure>): Outcome
  {
    if Hits(failure, instance) then Fail(failure.value.message) else Pass
  }

  class GloboAclApiManager {
    /** The calls its ACL API client has received, oldest first. */
    var sent: seq<ClientCall>

    constructor ()
      ensures sent == []
    {
      sent := [];
    }

    /** The loop shared by grant_access and revoke_access: one permit call
        per endpoint, then the commit; an exception from the client ends it
        at the call that raised. */
    method SendPermits(op: PermitOp, instance: AclInstance, unitHost: string,
                       failure: Option<ClientFailure>) returns (outcome: Outcome)
      modifies this
      ensures sent == old(sent) + SentCalls(op, instance, unitHost, failure)
      ensures outcome == SendOutcome(instance, failure)
    {
      var endpoints := instance.endpoints;
      var i := 0;
      while i < |endpoints|
        invariant 0 <= i <= |endpoints|
        invariant sent == old(sent) + PermitCalls(op, instance.name, unitHost, endpoints[..i])
        invariant failure.None? || failure.value.at >= i
      {
        var call := Permit(op, Request(instance.name, unitHost, endpoints[i]));
        PermitCallsStep(op, instance.name, unitHost, endpoints, i, old(sent));
        sent := sent + [call];
        if failure.Some? && failure.value.at == i {
          FailedPermitSendsNoCommit(op, instance, unitHost, failure);
          return Fail(failure.value.message);
        }
        i := i + 1;
      }
      assert endpoints[..i] == endpoints;
      sent := sent + [Commit];
      SuccessfulSendIsComplete(op, instance, unitHost, failure);
      outcome := if failure.Some? && failure.value.at == i then Fail(failure.value.message) else Pass;
    }

    method GrantAccess(instance: AclInstance, unitHost: string, failure: Option<ClientFailure>)
      returns (outcome: Outcome)
      modifies this
      ensures sent == old(sent) + SentCalls(AddTcpPermitAccess, instance, unitHost, failure)
      ensures outcome == SendOutcome(instance, failure)
    {
      outcome := SendPermits(AddTcpPermitAccess, instance, unitHost, failure);
    }

    method RevokeAccess(instance: AclInstance, unitHost: string, failure: Option<ClientFailure>)
      returns (outcome: Outcome)
      modifies this
      ensures sent == old(sent) + SentCalls(RemoveTcpPermitAccess, instance, unitHost, failure)
      ensures outcome == SendOutcome(instance, failure)
    {
      outcome := SendPermits(RemoveTcpPermitAccess, instance, unitHost, failure);
    }
  }

  /** The first k + 1 calls are the permit calls of the first k + 1
      endpoints. */
  lemma PermitCallsPrefix(op: PermitOp, instance: AclInstance, unitHost: string, k: nat)
    requires k < |instance.endpoints|
    ensures AccessCalls(op, instance, unitHost)[..k + 1]
         == PermitCalls(op, instance.name, unitHost, instance.endpoints[..k + 1])
  {
    var a := AccessCalls(op, instance, unitHost)[..k + 1];
    var b := PermitCalls(op, instance.name, unitHost, instance.endpoints[..k + 1]);
    assert forall i :: 0 <= i < k + 1 ==> instance.endpoints[..k + 1][i] == instance.endpoints[i];
    assert |a| == |b|;
    assert forall i :: 0 <= i < |a| ==> a[i] == b[i];
  }

  /** When the client raises on the permit call for endpoint k, it has
      received the permit calls for endpoints 0..k and no commit. */
  lemma FailedPermitSendsNoCommit(op: PermitOp, instance: AclInstance, unitHost: string,
                                  failure: Option<ClientFailure>)
    requires failure.Some? && failure.value.at < |instance.endpoints|
    ensures SentCalls(op, instance, unitHost, failure)
         == PermitCalls(op, instance.name, unitHost, instance.endpoints[..failure.value.at + 1])
    ensures Commit !in SentCalls(op, instance, unitHost, failure)
    ensures SendOutcome(instance, failure) == Fail(failure.value.message)
  {
    var k := failure.value.at;
    PermitCallsPrefix(op, instance, unitHost, k);
    var calls := PermitCalls(op, instance.name, unitHost, instance.endpoints[..k + 1]);
    forall i | 0 <= i < |calls| ensures calls[i] != Commit {
    }
  }

  /** Without an exception, or with one only on the commit, every call is
      received, the commit last. */
  lemma SuccessfulSendIsComplete(op: PermitOp, instance: AclInstance, unitHost: string,
                                 failure: Option<ClientFailure>)
    requires failure.None? || failure.value.at >= |instance.endpoints|
    ensures SentCalls(op, instance, unitHost, failure) == AccessCalls(op, instance, unitHost)
    ensures SendOutcome(instance, failure).Pass? <==> failure.None? || failure.value.at > |instance.endpoints|
  {
    var calls := AccessCalls(op, instance, unitHost);
    assert calls[..|calls|] == calls;
  }

  /** One permit call per endpoint in endpoint order, then exactly one
      commit, which is the last call (also with no endpoints). */
  lemma AccessCallsShape(op: PermitOp, instance: AclInstance, unitHost: string)
    ensures var calls := AccessCalls(op, instance, unitHost);
      && |calls| == |instance.endpoints| + 1
      && calls[|calls| - 1] == Commit
      && (forall i :: 0 <= i < |instance.endpoints| ==>
            calls[i] == Permit(op, Request(instance.name, unitHost, instance.endpoints[i])))
      && (forall i :: 0 <= i < |calls| - 1 ==> calls[i] != Commit)
  {
  }

  /** revoke_access sends the requests grant_access sends, in the same order,
      as removals. */
  lemma {:induction false} RevokeMirrorsGrant(instance: AclInstance, unitHost: string)
    ensures var g := AccessCalls(AddTcpPermitAccess, instance, unitHost);
      var r := AccessCalls(RemoveTcpPermitAccess, instance, unitHost);
      && |g| == |r|
      && (forall i :: 0 <= i < |g| && g[i].Permit? ==>
            r[i] == Permit(RemoveTcpPermitAccess, g[i].request))
      && (forall i :: 0 <= i < |g| && g[i] == Commit ==> r[i] == Commit)
  {
  }

  // ---------------------------------------------------------------------
  // access_managers: name -> implementation.

  datatype AccessManagerKind = GloboAclApi | Dumb

  function AccessManagerFor(name: string): (r: Option<AccessManagerKind>)
    ensures r == Some(GloboAclApi) <==> name == "globo-acl-api"
    ensures r == Some(Dumb) <==> name == "default"
    ensures r == None <==> name != "globo-acl-api" && name != "default"
  {
    if name == "globo-acl-api" then Some(GloboAclApi)
    else if name == "default" then Some(Dumb)
    else None
  }
}
