/**
  The operations gateway ("Redis Ops API"): the HTTP handlers that the chat
  client's tools call.  Each handler makes one or two calls into the Redis or
  Kubernetes client and turns what they return, or the exception they raise,
  into a JSON response or an HTTP error.

  The clients are outside this code.  The Redis master is modelled as the
  state it keeps (its databases of string keys and values); every other
  backend call is a parameter holding what it returned or what it raised.
 */
module OpsGateway {
  import opened Wrappers
  import opened Json

  /**
    An exception raised by a client call.  `message` is `str(e)`.  A
    Kubernetes `ApiException` also carries the HTTP status and the response
    body of the API server's reply.
   */
  datatype Exception =
    | ApiException(status: int, body: string, message: string)
    | OtherException(message: string)

  /** What a handler gives back: a JSON body (status 200) or an `HTTPException`. */
  datatype Response = Ok(body: Value) | HttpError(status: int, detail: string)

  /** The catch-all `except Exception as e` of the handlers: status 500 with `str(e)`. */
  function InternalError(e: Exception): Response
  {
    HttpError(500, e.message)
  }

  /** A Python string or `None` as JSON. */
  function OptionalString(s: Option<string>): Value
  {
    match s
    case Some(text) => JStr(text)
    case None => JNull
  }

  // ---------------------------------------------------------------------------
  // Redis endpoints
  // ---------------------------------------------------------------------------

  /**
    The Redis master the gateway talks to (`r_master`).  `db` is the
    database the client selects; `databases` maps database numbers to
    their keys and values.  A `fault` argument of the operations is
    the exception the client raised instead of running the command; the
    command then did not reach the server.
   */
  class RedisMaster {
    const db: nat
    var databases: map<nat, map<string, string>>

    /** The keys and values of the selected database. */
    function Data(): map<string, string>
      reads this
    {
      if db in databases then databases[db] else map[]
    }

    /**
      `redis_get(key)`: the key echoed with its value in the selected
      database, `null` when the key is absent; a client failure is a 500.
     */
    function Get(key: string, fault: Option<Exception>): (r: Response)
      reads this
      ensures fault.Some? ==> r == InternalError(fault.value)
      ensures fault.None? ==>
        && r.Ok?
        && Size(r.body) == 2
        && Field(r.body, "key") == Some(JStr(key))
        && (key in Data() ==> Field(r.body, "value") == Some(JStr(Data()[key])))
        && (key !in Data() ==> Field(r.body, "value") == Some(JNull))
    {
      match fault
      case Some(e) => InternalError(e)
      case None =>
        var value := if key in Data() then JStr(Data()[key]) else JNull;
        var fields := [("key", JStr(key)), ("value", value)];
        assert DistinctKeys(fields);
        LookupDistinct(fields, 0);
        LookupDistinct(fields, 1);
        Ok(JObj(fields))
    }

    /**
      `redis_set(body)`: stores `value` under `key` in the selected database
      and echoes both with status "ok"; a client failure is a 500 and
      stores nothing.
     */
    method Set(key: string, value: string, fault: Option<Exception>) returns (r: Response)
      modifies this
      ensures fault.None? ==> databases == old(databases)[db := old(Data())[key := value]]
      ensures fault.None? ==>
        && r.Ok?
        && Size(r.body) == 3
        && Field(r.body, "status") == Some(JStr("ok"))
        && Field(r.body, "key") == Some(JStr(key))
        && Field(r.body, "value") == Some(JStr(value))
      ensures fault.Some? ==> databases == old(databases) && r == InternalError(fault.value)
    {
      if fault.Some? {
        return InternalError(fault.value);
      }
      databases := databases[db := Data()[key := value]];
      var fields := [("status", JStr("ok")), ("key", JStr(key)), ("value", JStr(value))];
      assert DistinctKeys(fields);
      LookupDistinct(fields, 0);
      LookupDistinct(fields, 1);
      LookupDistinct(fields, 2);
      r := Ok(JObj(fields));
    }

    /**
      `redis_flush()`: FLUSHALL empties every database of the server, not
      only the selected one; a client failure is a 500 and deletes nothing.
     */
    method Flush(fault: Option<Exception>) returns (r: Response)
      modifies this
      ensures fault.None? ==> databases == map[]
      ensures fault.None? ==>
        && r.Ok?
        && Size(r.body) == 1
        && Field(r.body, "status") == Some(JStr("flushed_all_databases"))
      ensures fault.Some? ==> databases == old(databases) && r == InternalError(fault.value)
    {
      if fault.Some? {
        return InternalError(fault.value);
      }
      databases := map[];
      var fields := [("status", JStr("flushed_all_databases"))];
      LookupDistinct(fields, 0);
      r := Ok(JObj(fields));
    }
  }

  /**
    A set followed by a get of the same key reads back the value just
    written, and a get of any other key reads what it read before.
   */
  method SetThenGet(master: RedisMaster, key: string, value: string, other: string)
    returns (written: Response, readBack: Response, otherBefore: Response, otherAfter: Response)
    modifies master
    requires other != key
    ensures written.Ok? && readBack.Ok? && otherAfter == otherBefore
    ensures Field(readBack.body, "value") == Some(JStr(value))
  {
    otherBefore := master.Get(other, None);
    written := master.Set(key, value, None);
    readBack := master.Get(key, None);
    otherAfter := master.Get(other, None);
  }

  /** After a flush every key of every database reads as `null`. */
  method FlushThenGet(master: RedisMaster, key: string) returns (flushed: Response, readBack: Response)
    modifies master
    ensures flushed.Ok? && readBack.Ok?
    ensures Field(readBack.body, "value") == Some(JNull)
    ensures forall n :: n !in master.databases
  {
    flushed := master.Flush(None);
    readBack := master.Get(key, None);
  }

  /**
    `redis_replication_info()`: the replication sections of the master and
    of the replica, read in that order.  Both are returned only when both
    reads succeed; otherwise the first failure is a 500 and no partial body
    is returned.
   */
  function ReplicationInfo(master: Result<Value, Exception>, replica: Result<Value, Exception>): (r: Response)
    ensures r.Ok? <==> master.Success? && replica.Success?
    ensures r.Ok? ==>
      && Size(r.body) == 2
      && Field(r.body, "master") == Some(master.value)
      && Field(r.body, "replica") == Some(replica.value)
    ensures master.Failure? ==> r == InternalError(master.error)
    ensures master.Success? && replica.Failure? ==> r == InternalError(replica.error)
  {
    match master
    case Failure(e) => InternalError(e)
    case Success(masterInfo) =>
      match replica
      case Failure(e) => InternalError(e)
      case Success(replicaInfo) =>
        var fields := [("master", masterInfo), ("replica", replicaInfo)];
        assert DistinctKeys(fields);
        LookupDistinct(fields, 0);
        LookupDistinct(fields, 1);
        Ok(JObj(fields))
  }

  // ---------------------------------------------------------------------------
  // Kubernetes endpoints
  // ---------------------------------------------------------------------------

  datatype Container = Container(name: string)

  /**
    The parts of a `V1Pod` the gateway reads.  The phase and the addresses
    are `None` until the pod is scheduled and running.
   */
  datatype Pod = Pod(
    name: string,
    phase: Option<string>,
    hostIp: Option<string>,
    podIp: Option<string>,
    containers: seq<Container>)

  /** `[c.name for c in p.spec.containers]`. */
  function ContainerNames(containers: seq<Container>): (names: seq<Value>)
    ensures |names| == |containers|
    ensures forall i :: 0 <= i < |names| ==> names[i] == JStr(containers[i].name)
  {
    if containers == [] then []
    else [JStr(containers[0].name)] + ContainerNames(containers[1..])
  }

  /** The summary `list_redis_pods` gives for one pod. */
  function PodEntry(p: Pod): (entry: Value)
    ensures Size(entry) == 5
    ensures Field(entry, "name") == Some(JStr(p.name))
    ensures Field(entry, "phase") == Some(OptionalString(p.phase))
    ensures Field(entry, "host_ip") == Some(OptionalString(p.hostIp))
    ensures Field(entry, "pod_ip") == Some(OptionalString(p.podIp))
    ensures Field(entry, "containers") == Some(JArr(ContainerNames(p.containers)))
  {
    var fields := [
      ("name", JStr(p.name)),
      ("phase", OptionalString(p.phase)),
      ("host_ip", OptionalString(p.hostIp)),
      ("pod_ip", OptionalString(p.podIp)),
      ("containers", JArr(ContainerNames(p.containers)))
    ];
    assert DistinctKeys(fields);
    LookupDistinct(fields, 0);
    LookupDistinct(fields, 1);
    LookupDistinct(fields, 2);
    LookupDistinct(fields, 3);
    LookupDistinct(fields, 4);
    JObj(fields)
  }

  /**
    `list_redis_pods()`: one summary per pod of the namespace listing, in
    the listing's order.  A failed listing, an `ApiException` included, is a
    500 with the exception's message.
   */
  method ListRedisPods(pods: Result<seq<Pod>, Exception>) returns (r: Response)
    ensures pods.Failure? ==> r == InternalError(pods.error)
    ensures pods.Success? ==>
      && r.Ok?
      && Size(r.body) == 1
      && Field(r.body, "pods").Some?
      && var list := Field(r.body, "pods").value;
         && list.JArr?
         && |list.items| == |pods.value|
         && forall i :: 0 <= i < |pods.value| ==> list.items[i] == PodEntry(pods.value[i])
  {
    if pods.Failure? {
      return InternalError(pods.error);
    }
    var items := pods.value;
    var result: seq<Value> := [];
    for i := 0 to |items|
      invariant |result| == i
      invariant forall j :: 0 <= j < i ==> result[j] == PodEntry(items[j])
    {
      result := result + [PodEntry(items[i])];
    }
    r := Ok(JObj([("pods", JArr(result))]));
  }

  /**
    `restart_pod(body)`: deletes the pod (its controller recreates it).  An
    `ApiException` from the API server is passed on with its own status and
    body; any other failure is a 500.
   */
  function RestartPod(podName: string, fault: Option<Exception>): (r: Response)
    ensures fault.None? ==>
      && r.Ok?
      && Size(r.body) == 2
      && Field(r.body, "status") == Some(JStr("restarted"))
      && Field(r.body, "pod") == Some(JStr(podName))
    ensures fault.Some? && fault.value.ApiException? ==>
      r == HttpError(fault.value.status, fault.value.body)
    ensures fault.Some? && fault.value.OtherException? ==> r == InternalError(fault.value)
  {
    match fault
    case None =>
      var fields := [("status", JStr("restarted")), ("pod", JStr(podName))];
      assert DistinctKeys(fields);
      LookupDistinct(fields, 0);
      LookupDistinct(fields, 1);
      Ok(JObj(fields))
    case Some(ApiException(status, body, _)) => HttpError(status, body)
    case Some(OtherException(message)) => HttpError(500, message)
  }

  /** `healthz()`: always `{"status": "ok"}`, without touching any backend. */
  function Healthz(): (r: Response)
    ensures r.Ok? && Size(r.body) == 1 && Field(r.body, "status") == Some(JStr("ok"))
  {
    var fields := [("status", JStr("ok"))];
    LookupDistinct(fields, 0);
    Ok(JObj(fields))
  }
}
