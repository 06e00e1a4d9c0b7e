/** The Instance record of redisapi/storage.py: four string fields set once
    by the constructor, and their JSON projection. */
module Storage {
  import opened Wrappers

  datatype Instance = Instance(host: string, containerId: string, port: string, name: string)

  /** The constructor's keyword parameter names. */
  const Parameters: set<string> := {"host", "container_id", "port", "name"}

  /** Message Python gives for a keyword argument the constructor lacks
      (Python goes on to quote the first such keyword; see README). */
  const UnexpectedKeyword := "__init__() got an unexpected keyword argument"

  /** Message Python gives for a parameter no keyword argument supplied. */
  function MissingArgument(key: string): string
  {
    "__init__() missing required argument '" + key + "'"
  }

  /** Instance(**kw): the constructor called with keyword arguments. Any key
      that is not a parameter raises, and so does a missing parameter. */
  function FromKeywords(kw: map<string, string>): (r: Result<Instance>)
    ensures r.Success? <==> kw.Keys == Parameters
    ensures r.Success? ==>
      r.value.host == kw["host"] && r.value.containerId == kw["container_id"] &&
      r.value.port == kw["port"] && r.value.name == kw["name"]
    ensures !(kw.Keys <= Parameters) ==> r == Failure(UnexpectedKeyword)
  {
    var extra := kw.Keys - Parameters;
    if extra != {} then
      Failure(UnexpectedKeyword)
    else if "host" !in kw then Failure(MissingArgument("host"))
    else if "container_id" !in kw then Failure(MissingArgument("container_id"))
    else if "port" !in kw then Failure(MissingArgument("port"))
    else if "name" !in kw then Failure(MissingArgument("name"))
    else Success(Instance(kw["host"], kw["container_id"], kw["port"], kw["name"]))
  }

  /** to_json: one key per field, each holding that field. */
  function ToJson(i: Instance): (m: map<string, string>)
    ensures m.Keys == {"host", "container_id", "port", "name"}
    ensures m["host"] == i.host && m["container_id"] == i.containerId
    ensures m["port"] == i.port && m["name"] == i.name
  {
    map["host" := i.host, "container_id" := i.containerId, "port" := i.port, "name" := i.name]
  }

  /** Feeding to_json back to the constructor rebuilds the same record. */
  lemma ToJsonRoundTrip(i: Instance)
    ensures FromKeywords(ToJson(i)) == Success(i)
  {
  }

  /** Hence to_json loses nothing: distinct records give distinct maps. */
  lemma ToJsonInjective(i: Instance, j: Instance)
    requires ToJson(i) == ToJson(j)
    ensures i == j
  {
    ToJsonRoundTrip(i);
    ToJsonRoundTrip(j);
  }
}
