# redisapi in Dafny

A model of the logic in tsuru's redisapi, a broker that hands Redis connection settings to a
platform-as-a-service. It covers what the service itself decides, not the I/O it delegates:

- **Access control** (`Acl`). The in-memory permit table `DumbAccessManager` is a class whose
  `permits` map goes from instance name to client hosts. `grant_access` appends a host and
  `revoke_access` removes its first occurrence. The ACL API manager `GloboACLAPIManager` is a
  class that records, in order, the calls its client receives: one TCP permit request per
  endpoint, then one commit. The `access_managers` registry is also here.
- **Plan catalog** (`Plans`). This is the fixed three-entry catalog and `active()`. The model
  keeps the source's loop and proves it against a selection function.
- **Instance record** (`Storage`). This is the four-field `Instance`, its constructor called
  with keyword arguments, and `to_json`.
- **Configuration** (`Environment`). The process environment is a `map<string, string>`.
  `get_value` is the required-variable lookup. `os.environ.get` returns a present value even
  when it is empty.
- **Managers** (`Managers`, for redisapi/managers.py). This covers `SharedManager`
  (construction, `add_instance`, `is_ok`), the `bind` shared by `SharedManager` and
  `DockerManager`, the fake manager with its flags, and the `managers` registry.
- **Health check double** (`HealthCheck`). `FakeHealthCheck` is a class with its two flags.
- **The single-file service** (`LegacyConfig`, `LegacyManagers`, `LegacyApp`, for managers.py
  and redisapi.py). This covers the required `server`, `coalesce`, `RedisManager.bind`, the
  fake manager of that file, and the HTTP handlers as (body, status) values. managers.py:9-21
  and redisapi.py:13-25 hold the same code. Both are modelled by `LegacyConfig`, so the rows
  below cite managers.py.
- **Decimal text** (`Decimal`). This is `str()` of an integer, used for the port of a permit
  request.

The environment is a value passed to each reader, so no operation can change it. A live Redis
connection is a parameter `connect` that maps the connection keyword arguments to
`Connected` or `ConnectFailed(message)`. A raised exception becomes `Failure(message)` or
`Fail(message)`.

Where tests of other revisions and the code differ, the model follows the code:

- The `status` handler of redisapi.py returns 204 or lets the connection error escape. It
  never builds a 500 reply itself (redisapi.py:57-61). The test at
  tests/test_redisapi.py:124-143 expects a 500 reply with the error text, and a password
  passed to the connection.

## Model

| member | source | states |
|---|---|---|
| `Environment.GetValue` | redisapi/utils.py:8-15 | Succeeds exactly when the variable is present. It then returns its value, even an empty one. Otherwise it fails with "You must define the <key> environment variable." |
| `Storage.FromKeywords` | redisapi/storage.py:8-12 | The constructor called with keyword arguments succeeds exactly when the keys are host, container_id, port and name. It stores each unchanged. Any unknown keyword raises. |
| `Storage.ToJson` | redisapi/storage.py:14-20 | The map has exactly the keys host, container_id, port and name. Each holds the field of that name. |
| `Storage.ToJsonRoundTrip` | redisapi/storage.py:8-20 | Passing `to_json(i)` back to the constructor rebuilds `i`. |
| `Storage.ToJsonInjective` | redisapi/storage.py:14-20 | Equal `to_json` maps come from equal records. |
| `Plans.Active` | redisapi/plans.py:19-26 | The loop's result equals the selection from the catalog. A plan is in it exactly when it is in the catalog and its name is active. An unset variable counts as the empty list. |
| `Plans.SelectedMembers` | redisapi/plans.py:23-25 | A plan is selected if and only if it is in the catalog and its name is listed. |
| `Plans.SelectedIsSubsequence` | redisapi/plans.py:22-25 | The result is a subsequence of the catalog, so catalog order is kept. |
| `Plans.SelectedMonotonic` | redisapi/plans.py:24 | Listing more names never drops a selected plan. The smaller result is a subsequence of the larger one. |
| `Plans.SelectedIgnoresUnknown` | redisapi/plans.py:24 | Adding a name that no plan carries leaves the result unchanged. |
| `Plans.SelectedDistinct` | redisapi/plans.py:22-25 | A catalog without repeats gives a result without repeats, even when names repeat. The result is no longer than the catalog. |
| `Plans.SelectedAll` | redisapi/plans.py:23-25 | When every catalog name is listed, the result is the whole catalog. |
| `Plans.SelectedNone` | redisapi/plans.py:20-26 | The empty list, which is the default `"[]"`, selects nothing. |
| `Plans.CatalogShape` | redisapi/plans.py:9-16 | The catalog is development, basic, plus, in that order, with no repeats. |
| `Plans.ActiveFacts` | redisapi/plans.py:9-26 | The service offers: no plan when unset; the whole catalog when all three names are listed; otherwise at most three distinct plans. |
| `Decimal.NatText` | redisapi/acl.py:25 | The text of a natural number is non-empty and made of digits. It has no leading zero. |
| `Decimal.NatTextRoundTrip` | redisapi/acl.py:25 | Reading the digits back gives the number. |
| `Decimal.IntText` | redisapi/acl.py:25 | `str()` of an int: well-formed integer text, starting with a minus sign exactly when the number is negative. |
| `Decimal.IntTextRoundTrip` | redisapi/acl.py:25 | `str(port)` is well formed and `int` reads it back as the same port. |
| `Decimal.IntTextInjective` | redisapi/acl.py:25 | Different ports give different port texts. |
| `Acl.RemoveFirst` | redisapi/acl.py:58 | `list.remove` shortens the list by one. |
| `Acl.FirstIndex` | redisapi/acl.py:58 | Returns the position of the first occurrence of the host. |
| `Acl.Granted` | redisapi/acl.py:48-53 | The host is appended to the name's list, which is created if absent. The name becomes a key. No other entry changes. |
| `Acl.Revoked` | redisapi/acl.py:55-59 | Fails with the `list.remove` error exactly when the list is non-empty and lacks the host. An empty or missing list leaves the table as it was. Otherwise the first occurrence is removed and no other entry changes. |
| `Acl.DumbAccessManager.constructor` | redisapi/acl.py:45-46 | Starts with an empty table. |
| `Acl.DumbAccessManager.GrantAccess` | redisapi/acl.py:48-53 | The new table is `Granted(old table, name, host)`. |
| `Acl.DumbAccessManager.RevokeAccess` | redisapi/acl.py:55-59 | The new table is the one `Revoked` gives, and the outcome is Pass. On the error, the table is unchanged and the outcome carries the error. |
| `Acl.RemoveFirstAt` | redisapi/acl.py:58 | Removal drops exactly the first occurrence and keeps the rest in order. |
| `Acl.RemoveFirstMultiset` | redisapi/acl.py:58 | Removal takes one copy of the host out of the multiset of hosts. |
| `Acl.RemoveAppended` | redisapi/acl.py:52-58 | Removing a just-appended host gives back the list when the host was absent before. Otherwise it removes the earlier occurrence. |
| `Acl.RevokeWithoutEntry` | redisapi/acl.py:56-57 | A name with no entry, or with an empty list, is left alone. No entry is created. |
| `Acl.RevokeAbsentHost` | redisapi/acl.py:57-58 | Revoking a host that a non-empty list lacks is an error. |
| `Acl.GrantThenRevoke` | redisapi/acl.py:48-59 | Grant followed by revoke of the same host always succeeds. It restores the list when the host was absent. Otherwise the first earlier occurrence is removed and the host ends up last, so the multiset of hosts is the same. Other entries are untouched. |
| `Acl.Request` | redisapi/acl.py:19-25 | Source is `<unit_host>/32` and dest is `<host>/32`. The options are operator "eq", `str(port)` and target "dest". The desc is `redis-api instance "<name>" access from <unit_host>/32 to <host>/32`. |
| `Acl.PermitCalls` | redisapi/acl.py:20-27 | Gives one permit call per endpoint. Call i carries the request for endpoint i. |
| `Acl.GloboAclApiManager.constructor` | redisapi/acl.py:12-16 | The client has received no call. |
| `Acl.GloboAclApiManager.SendPermits` | redisapi/acl.py:18-40 | The loop appends to the calls the client received the permit calls, in endpoint order, then a commit, stopping after the call that raises. The outcome is that exception exactly when a call raises. |
| `Acl.GloboAclApiManager.GrantAccess` | redisapi/acl.py:18-28 | Appends the add-permit calls and then the commit, up to the call that raises; the outcome is that exception or Pass. |
| `Acl.GloboAclApiManager.RevokeAccess` | redisapi/acl.py:30-40 | Appends the remove-permit calls and then the commit, up to the call that raises; the outcome is that exception or Pass. |
| `Acl.PermitCallsPrefix` | redisapi/acl.py:22-27 | The first k + 1 calls sent are the permit calls of the first k + 1 endpoints. |
| `Acl.FailedPermitSendsNoCommit` | redisapi/acl.py:22-28 | When the permit call for endpoint k raises, the client has received the permit calls for endpoints 0 to k and no commit, and the caller sees that exception. |
| `Acl.SuccessfulSendIsComplete` | redisapi/acl.py:22-28 | When no permit call raises, every permit call and the commit are sent; the outcome is Pass unless the commit itself raises. |
| `Acl.AccessCallsShape` | redisapi/acl.py:18-28 | Sends exactly one permit call per endpoint in order, then exactly one commit as the last call. This holds even with no endpoints. |
| `Acl.RevokeMirrorsGrant` | redisapi/acl.py:30-40 | Revoke sends the same requests as grant in the same order, as removals, then the commit. |
| `Acl.AccessManagerFor` | redisapi/acl.py:61-62 | "globo-acl-api" and "default" name the two managers. Any other name is a failed lookup. |
| `HealthCheck.FakeHealthCheck.constructor` | redisapi/hc.py:6-8 | Starts with added and removed both false. |
| `HealthCheck.FakeHealthCheck.Add` | redisapi/hc.py:10-11 | Sets added and leaves removed. The result does not depend on host or port, so repeating it changes nothing. |
| `HealthCheck.FakeHealthCheck.Remove` | redisapi/hc.py:13-14 | Sets removed and leaves added. The result does not depend on host or port, so repeating it changes nothing. |
| `Managers.ConnectArgs` | redisapi/managers.py:123-126 | The arguments are host = server, plus password exactly when the password variable is non-empty. |
| `Managers.IsOk` | redisapi/managers.py:122-132 | Returns (True, "") when the connection made with those arguments opens. Otherwise it returns (False, the error text verbatim). |
| `Managers.Bind` | redisapi/managers.py:110-114 | Returns exactly REDIS_HOST = the instance host and REDIS_PORT = the instance port. There is never a password. |
| `Managers.SharedManager.New` | redisapi/managers.py:96-97 | Succeeds with the server exactly when REDIS_SERVER_HOST is present. Otherwise it fails with that variable's message. |
| `Managers.SharedManager.AddInstance` | redisapi/managers.py:99-108 | The name is as given, the plan "development" and container_id "". The host is REDIS_PUBLIC_HOST when present, even if empty, else the server. The port is REDIS_SERVER_PORT when present, else "6379". |
| `Managers.SharedManager.AddInstanceAsWritten` | redisapi/managers.py:99-108 | The constructor call exactly as add_instance writes it, with a plan keyword, fails. |
| `Managers.AddInstanceAsWrittenRaises` | redisapi/managers.py:102-108 | The constructor call as written, with a plan keyword, always raises. |
| `Managers.AddInstanceWithoutPlan` | redisapi/managers.py:102-108 | The same call without the plan keyword builds the record that AddInstance returns. |
| `Managers.SharedBindAfterAdd` | redisapi/managers.py:99-114 | Binding a freshly added shared instance gives the public host and port and no password. |
| `Managers.FakeManager.constructor` | redisapi/managers.py:71-77 | All flags start false, with ok false and msg "error". |
| `Managers.FakeManager.AddInstance` | redisapi/managers.py:79-80 | Sets instance_added only. |
| `Managers.FakeManager.Bind` | redisapi/managers.py:82-83 | Sets binded only. |
| `Managers.FakeManager.Unbind` | redisapi/managers.py:85-86 | Sets unbinded only. |
| `Managers.FakeManager.RemoveInstance` | redisapi/managers.py:88-89 | Sets removed only. |
| `Managers.FakeManager.IsOk` | redisapi/managers.py:91-92 | Returns the current (ok, msg). |
| `Managers.ManagerFor` | redisapi/managers.py:135-139 | "shared", "fake" and "docker" name the three managers. Any other name is a failed lookup. |
| `LegacyConfig.ServerSetting` | managers.py:9-13 | Loading succeeds with the server exactly when REDIS_SERVER_HOST is present. Otherwise it fails with "You must define the REDIS_SERVER_HOST environment variable." |
| `LegacyConfig.ServerSettingIsGetValue` | managers.py:9-13 | This module-level lookup behaves exactly like `get_value("REDIS_SERVER_HOST")`. |
| `LegacyConfig.Coalesce` | managers.py:16-21 | Returns the value of the first listed variable that is set and non-empty, scanning in order. It returns the default when there is none, including when the list is empty. |
| `LegacyConfig.CoalesceVersusGet` | managers.py:16-21 | `coalesce` and `os.environ.get` with a default disagree exactly when the variable is present but empty and the default is not empty. |
| `LegacyManagers.BindVars` | managers.py:52-62 | Gives REDIS_HOST = the public host if non-empty, else the server, and REDIS_PORT = the port if non-empty, else "6379". REDIS_PASSWORD is present exactly when the password is non-empty, and then equals it. There are no other keys. |
| `LegacyManagers.FakeManager.constructor` | managers.py:24-30 | All flags start false, with ok false and msg "error". |
| `LegacyManagers.FakeManager.AddInstance` | managers.py:32-33 | Sets instance_added only. |
| `LegacyManagers.FakeManager.Bind` | managers.py:35-36 | Sets binded only. |
| `LegacyManagers.FakeManager.Unbind` | managers.py:38-39 | Sets unbinded only. |
| `LegacyManagers.FakeManager.Remove` | managers.py:41-42 | Sets removed only. |
| `LegacyManagers.FakeManager.IsOk` | managers.py:44-45 | Returns the current (ok, msg). |
| `LegacyApp.Bind` | redisapi.py:28-39 | Returns code 201 with the variables `BindVars` promises: the public-host and port fallbacks, and the password only when non-empty. |
| `LegacyApp.Unbind` | redisapi.py:42-44 | Returns ("", 200) for every input. |
| `LegacyApp.AddInstance` | redisapi.py:47-49 | Returns ("", 201). |
| `LegacyApp.RemoveInstance` | redisapi.py:52-54 | Returns ("", 200) for every input. |
| `LegacyApp.Status` | redisapi.py:57-61 | Connects with host = server only. It returns ("", 204) exactly when that works. Otherwise the connection error escapes. |
| `LegacyApp.BindIgnoresName` | redisapi.py:29-39 | The bind reply does not depend on the instance name. |
| `LegacyApp.SharedBindMatchesHandler` | redisapi.py:28-39 | With the public host and port each absent or non-empty, and no password, the later shared manager's add-then-bind gives what this handler returns. |
| `LegacyApp.EmptyPublicHostDiffers` | redisapi.py:30 | A present but empty public host is handed out as "" by the later manager, but is replaced by the server here. |

## Left out

- `DockerManager` construction, `client`, `health_checker`, `add_instance` and `remove_instance` (redisapi/managers.py:22-51, 62-65). They are calls to the container daemon and the health-check registry. Only its `bind` (redisapi/managers.py:53-57) is modelled. Its body is that of `SharedManager.bind`, so `Managers.Bind` models both.
- `DockerHaManager` (redisapi/managers.py:15-19). It only indexes a `health_checkers` registry that redisapi/hc.py does not define. The `MongoStorage` import at redisapi/managers.py:12 has no counterpart in redisapi/storage.py either.
- The method bodies that are only `pass` have no behaviour to state:
  - `SharedManager.unbind`, `SharedManager.remove_instance`;
  - `DockerManager.unbind`, `DockerManager.is_ok`;
  - `RedisManager.add_instance`, `RedisManager.unbind`, `RedisManager.remove_instance`.
- `RedisManager.is_ok` (managers.py:70-80). It is the same code as `SharedManager.is_ok` with the module-level server, so it is modelled by `Managers.IsOk` applied to that server.
- The ACL API client and how the `GloboACLAPIManager` constructor builds it (redisapi/acl.py:12-16). That is a foreign HTTP client. The model records the calls the client receives instead, and takes as a parameter the call, if any, on which the client raises.
- Live Redis connections. The result of a connection attempt is a parameter.
- JSON decoding of `REDIS_API_PLANS` and of the docker host list, and JSON encoding of the bind reply. `Plans.Active` receives the decoded list, or None when the variable is unset. The bind handler returns the map.
- Flask routing, redisapi/api.py, redisapi/__init__.py and redisapi/auth.py. These are the web framework, the document-store client and a platform HTTP call.
- Storage.FromKeywords: the error text is fixed. Python also names the offending keyword or the missing arguments.
- Acl.DumbAccessManager.GrantAccess, Acl.DumbAccessManager.RevokeAccess: Python appends to or removes from the stored list in place (redisapi/acl.py:52, 58), while the model stores a new sequence. Nothing else holds that list, so the difference cannot be observed.

## Findings

| source | as written | input that shows it | evidently intended | confidence | as-written member | corrected member |
|---|---|---|---|---|---|---|
| redisapi/managers.py:102-108 | `add_instance` calls `Instance(..., plan='development', ...)`, but the constructor at redisapi/storage.py:8 has no `plan` parameter, so the call raises TypeError | any environment with REDIS_SERVER_HOST, and the instance name "ble" | an instance with plan "development", as tests/test_shared_manager.py:54-60 expect | low: the files may come from different revisions; not executed | `Managers.SharedManager.AddInstanceAsWritten`, `Managers.AddInstanceAsWrittenRaises` | `Managers.SharedManager.AddInstance` |
