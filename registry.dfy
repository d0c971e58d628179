/**
  The tool registry of the chat client: the schema list offered to the model
  (`tools`), the dispatch table from tool name to forwarding function
  (`tool_map`), and what each forwarder does with the arguments it is given,
  namely bind them as keyword arguments and issue one HTTP request to the
  operations gateway.
 */
module ToolRegistry {
  import opened Wrappers
  import opened Json

  /** One entry of a schema's "properties" object; every property here is a string. */
  datatype Property = Property(name: string, typeName: string)

  /**
    One `{"type": "function", "function": {...}}` entry of `tools`.
    `required` is `None` where the schema has no "required" member.
   */
  datatype ToolDefinition = ToolDefinition(
    name: string,
    description: string,
    properties: seq<Property>,
    required: Option<seq<string>>)

  /** The five forwarding functions that `tool_map` dispatches to. */
  datatype Forwarder =
    | RedisGetForwarder
    | RedisSetForwarder
    | ReplicationInfoForwarder
    | ListPodsForwarder
    | RestartPodForwarder

  datatype HttpMethod = Get | Post

  /** The five gateway endpoints the forwarders call. */
  datatype Route =
    | RedisGetRoute
    | RedisSetRoute
    | ReplicationInfoRoute
    | PodsRoute
    | RestartPodRoute

  /**
    The single request a forwarder sends: the endpoint, its query parameters
    and its JSON body.  The method and URL follow from the endpoint.
   */
  datatype HttpRequest = HttpRequest(
    route: Route,
    query: seq<(string, Value)>,
    body: Option<Value>)

  const OPS_API_BASE: string := "http://127.0.0.1:8000"

  function Verb(route: Route): HttpMethod
  {
    match route
    case RedisGetRoute => Get
    case RedisSetRoute => Post
    case ReplicationInfoRoute => Get
    case PodsRoute => Get
    case RestartPodRoute => Post
  }

  /** The absolute URL of an endpoint, under the default gateway base. */
  function Url(route: Route): string
  {
    OPS_API_BASE +
      match route
      case RedisGetRoute => "/redis/get"
      case RedisSetRoute => "/redis/set"
      case ReplicationInfoRoute => "/redis/replication-info"
      case PodsRoute => "/k8s/pods"
      case RestartPodRoute => "/k8s/restart-pod"
  }

  const TOOLS: seq<ToolDefinition> := [
    ToolDefinition("redis_get", "Get a value from Redis by key.",
      [Property("key", "string")], Some(["key"])),
    ToolDefinition("redis_set", "Set a key in Redis.",
      [Property("key", "string"), Property("value", "string")], Some(["key", "value"])),
    ToolDefinition("redis_replication_info", "Get master/replica replication details.",
      [], None),
    ToolDefinition("list_redis_pods", "List Redis pods from Kubernetes.",
      [], None),
    ToolDefinition("restart_pod", "Restart a Redis pod.",
      [Property("pod_name", "string")], Some(["pod_name"]))
  ]

  const TOOL_MAP: map<string, Forwarder> := map[
    "redis_get" := RedisGetForwarder,
    "redis_set" := RedisSetForwarder,
    "redis_replication_info" := ReplicationInfoForwarder,
    "list_redis_pods" := ListPodsForwarder,
    "restart_pod" := RestartPodForwarder
  ]

  /** The forwarder's Python parameter list, in declaration order; none has a default. */
  function Parameters(f: Forwarder): seq<string>
  {
    match f
    case RedisGetForwarder => ["key"]
    case RedisSetForwarder => ["key", "value"]
    case ReplicationInfoForwarder => []
    case ListPodsForwarder => []
    case RestartPodForwarder => ["pod_name"]
  }

  /** The names a schema marks required; an absent "required" member requires nothing. */
  function RequiredNames(d: ToolDefinition): seq<string>
  {
    match d.required
    case Some(names) => names
    case None => []
  }

  function PropertyNames(d: ToolDefinition): (names: seq<string>)
    ensures |names| == |d.properties|
    ensures forall i :: 0 <= i < |names| ==> names[i] == d.properties[i].name
  {
    seq(|d.properties|, i requires 0 <= i < |d.properties| => d.properties[i].name)
  }

  /**
    How `requests` encodes one `params` entry: `None` is left out, a list
    gives one parameter per element that is not `None`, a dict one per key
    (iterating a dict yields its keys), and any other value one parameter.
   */
  function QueryValues(v: Value): (values: seq<Value>)
    ensures v.JNull? ==> values == []
    ensures v.JBool? || v.JNum? || v.JStr? ==> values == [v]
    ensures v.JArr? ==> forall x :: x in values <==> x in v.items && !x.JNull?
    ensures v.JArr? ==> multiset(values) == multiset(v.items)[JNull := 0]
    ensures v.JObj? ==> |values| == |v.fields| && forall i :: 0 <= i < |values| ==> values[i] == JStr(v.fields[i].0)
  {
    match v
    case JNull => []
    case JArr(items) => NonNull(items)
    case JObj(fields) => KeyNames(fields)
    case _ => [v]
  }

  /** The elements that are not `null`, in order. */
  function NonNull(items: seq<Value>): (kept: seq<Value>)
    ensures |kept| <= |items|
    ensures forall x :: x in kept <==> x in items && !x.JNull?
    ensures multiset(kept) == multiset(items)[JNull := 0]
  {
    if items == [] then []
    else
      assert items == [items[0]] + items[1..];
      (if items[0].JNull? then [] else [items[0]]) + NonNull(items[1..])
  }

  /**
    The elements are kept in their order: filtering a concatenation is
    concatenating the filtered parts.
   */
  lemma {:induction false} NonNullAppend(a: seq<Value>, b: seq<Value>)
    ensures NonNull(a + b) == NonNull(a) + NonNull(b)
  {
    if a != [] {
      assert (a + b)[1..] == a[1..] + b;
      NonNullAppend(a[1..], b);
    } else {
      assert a + b == b;
    }
  }

  /** The keys of an object, as strings, in order. */
  function KeyNames(fields: seq<(string, Value)>): (names: seq<Value>)
    ensures |names| == |fields|
    ensures forall i :: 0 <= i < |names| ==> names[i] == JStr(fields[i].0)
  {
    if fields == [] then [] else [JStr(fields[0].0)] + KeyNames(fields[1..])
  }

  /** The query entries `params={name: v}` produces. */
  function QueryParams(name: string, v: Value): (query: seq<(string, Value)>)
    ensures |query| == |QueryValues(v)|
    ensures forall i :: 0 <= i < |query| ==> query[i] == (name, QueryValues(v)[i])
  {
    Tagged(name, QueryValues(v))
  }

  function Tagged(name: string, values: seq<Value>): (query: seq<(string, Value)>)
    ensures |query| == |values|
    ensures forall i :: 0 <= i < |query| ==> query[i] == (name, values[i])
  {
    if values == [] then [] else [(name, values[0])] + Tagged(name, values[1..])
  }

  /** The values a query carries under `name`, in order. */
  function ValuesNamed(query: seq<(string, Value)>, name: string): seq<Value>
  {
    if query == [] then []
    else (if query[0].0 == name then [query[0].1] else []) + ValuesNamed(query[1..], name)
  }

  /** Every entry of `Tagged(name, values)` is named `name`, so its values are `values`. */
  lemma {:induction false} TaggedValues(name: string, values: seq<Value>)
    ensures ValuesNamed(Tagged(name, values), name) == values
  {
    if values != [] {
      var q := Tagged(name, values);
      assert q[1..] == Tagged(name, values[1..]);
      TaggedValues(name, values[1..]);
    }
  }

  /**
    Whether `f(**args)` binds: Python accepts the keyword arguments only when
    every parameter is supplied and no unknown keyword is given.
   */
  predicate Binds(f: Forwarder, args: map<string, Value>)
  {
    args.Keys == ParameterSet(f)
  }

  /** The forwarder's parameter names as a set. */
  function ParameterSet(f: Forwarder): (names: set<string>)
    ensures forall p :: p in names <==> p in Parameters(f)
  {
    set p | p in Parameters(f)
  }

  /** The request forwarder `f` sends once its arguments are bound. */
  function Request(f: Forwarder, args: map<string, Value>): HttpRequest
    requires Binds(f, args)
  {
    match f
    case RedisGetForwarder =>
      HttpRequest(RedisGetRoute, QueryParams("key", args["key"]), None)
    case RedisSetForwarder =>
      HttpRequest(RedisSetRoute, [], Some(JObj([("key", args["key"]), ("value", args["value"])])))
    case ReplicationInfoForwarder =>
      HttpRequest(ReplicationInfoRoute, [], None)
    case ListPodsForwarder =>
      HttpRequest(PodsRoute, [], None)
    case RestartPodForwarder =>
      HttpRequest(RestartPodRoute, [], Some(JObj([("pod_name", args["pod_name"])])))
  }

  /**
    Calls forwarder `f` as `f(**args)`: the request it sends, or `None` when
    the arguments do not bind and the call raises TypeError before any
    request is made.
   */
  function Forward(f: Forwarder, args: map<string, Value>): Option<HttpRequest>
  {
    if Binds(f, args) then Some(Request(f, args)) else None
  }

  /**
    A forwarder whose arguments bind sends every argument it was given under
    the parameter's own name: `redis_get` as query parameters encoded the way
    `requests` encodes `params`, the others as members of the JSON body.
   */
  lemma ForwardSendsArguments(f: Forwarder, args: map<string, Value>)
    requires Binds(f, args)
    ensures forall p :: p in Parameters(f) ==> p in args
    ensures f.RedisGetForwarder? ==>
      && Request(f, args).body.None?
      && ValuesNamed(Request(f, args).query, "key") == QueryValues(args["key"])
    ensures !f.RedisGetForwarder? ==>
      && Request(f, args).query == []
      && forall p :: p in Parameters(f) ==>
           Request(f, args).body.Some? && Field(Request(f, args).body.value, p) == Some(args[p])
  {
    if f.RedisGetForwarder? {
      TaggedValues("key", QueryValues(args["key"]));
    }
    if f.RedisSetForwarder? {
      var body := Request(f, args).body.value;
      assert body.fields[0].0 != "value";
      assert body.fields[1..] == [("value", args["value"])];
      assert Lookup(body.fields[1..], "value") == Some(args["value"]);
    }
  }

  /**
    The query `redis_get` sends for its one argument: nothing at all for
    `null`, the value itself for a string, number or boolean, and one entry
    per element that is not `null` for a list.
   */
  lemma RedisGetQuery(args: map<string, Value>)
    requires Binds(RedisGetForwarder, args)
    ensures var key := args["key"]; var query := Request(RedisGetForwarder, args).query;
      && (key.JNull? ==> query == [])
      && (key.JStr? || key.JNum? || key.JBool? ==> query == [("key", key)])
      && (key.JArr? ==>
            && (forall i :: 0 <= i < |query| ==> query[i].0 == "key")
            && ValuesNamed(query, "key") == NonNull(key.items)
            && multiset(ValuesNamed(query, "key")) == multiset(key.items)[JNull := 0])
  {
    var key := args["key"];
    assert Request(RedisGetForwarder, args).query == Tagged("key", QueryValues(key));
    TaggedValues("key", QueryValues(key));
  }

  /** Each forwarder sends its request to its own endpoint of the gateway, with its own method. */
  lemma ForwarderEndpoints(args: map<string, Value>)
    ensures Binds(RedisGetForwarder, args) ==>
      var route := Request(RedisGetForwarder, args).route;
      Verb(route) == Get && Url(route) == OPS_API_BASE + "/redis/get"
    ensures Binds(RedisSetForwarder, args) ==>
      var route := Request(RedisSetForwarder, args).route;
      Verb(route) == Post && Url(route) == OPS_API_BASE + "/redis/set"
    ensures Binds(ReplicationInfoForwarder, args) ==>
      var route := Request(ReplicationInfoForwarder, args).route;
      Verb(route) == Get && Url(route) == OPS_API_BASE + "/redis/replication-info"
    ensures Binds(ListPodsForwarder, args) ==>
      var route := Request(ListPodsForwarder, args).route;
      Verb(route) == Get && Url(route) == OPS_API_BASE + "/k8s/pods"
    ensures Binds(RestartPodForwarder, args) ==>
      var route := Request(RestartPodForwarder, args).route;
      Verb(route) == Post && Url(route) == OPS_API_BASE + "/k8s/restart-pod"
  {
  }

  /** The schema names are pairwise distinct and are exactly the dispatch keys. */
  lemma SchemaNamesAreDispatchKeys()
    ensures forall i, j :: 0 <= i < j < |TOOLS| ==> TOOLS[i].name != TOOLS[j].name
    ensures (set i | 0 <= i < |TOOLS| :: TOOLS[i].name) == TOOL_MAP.Keys
  {
    var names := set i | 0 <= i < |TOOLS| :: TOOLS[i].name;
    assert TOOLS[0].name in names && TOOLS[1].name in names && TOOLS[2].name in names;
    assert TOOLS[3].name in names && TOOLS[4].name in names;
  }

  /**
    Each schema agrees with the forwarder its name dispatches to: the
    properties and the required list are the forwarder's parameters, in order.
   */
  lemma SchemasMatchForwarders()
    ensures forall i :: 0 <= i < |TOOLS| ==>
      TOOLS[i].name in TOOL_MAP
      && RequiredNames(TOOLS[i]) == Parameters(TOOL_MAP[TOOLS[i].name])
      && PropertyNames(TOOLS[i]) == Parameters(TOOL_MAP[TOOLS[i].name])
  {
    forall i | 0 <= i < |TOOLS|
      ensures TOOLS[i].name in TOOL_MAP
      ensures RequiredNames(TOOLS[i]) == Parameters(TOOL_MAP[TOOLS[i].name])
      ensures PropertyNames(TOOLS[i]) == Parameters(TOOL_MAP[TOOLS[i].name])
    {
      assert PropertyNames(TOOLS[i]) == Parameters(TOOL_MAP[TOOLS[i].name]);
    }
  }

  /** The literal "required" lists: present for three tools, absent for the other two. */
  lemma RequiredLists()
    ensures TOOLS[0].name == "redis_get" && TOOLS[0].required == Some(["key"])
    ensures TOOLS[1].name == "redis_set" && TOOLS[1].required == Some(["key", "value"])
    ensures TOOLS[2].name == "redis_replication_info" && TOOLS[2].required.None?
    ensures TOOLS[3].name == "list_redis_pods" && TOOLS[3].required.None?
    ensures TOOLS[4].name == "restart_pod" && TOOLS[4].required == Some(["pod_name"])
  {
  }

  /**
    A tool call that supplies exactly the arguments its schema marks required
    binds to the forwarder and yields a request; any other argument set raises.
   */
  lemma SchemaPredictsBinding(i: nat, args: map<string, Value>)
    requires i < |TOOLS|
    ensures TOOLS[i].name in TOOL_MAP
    ensures Binds(TOOL_MAP[TOOLS[i].name], args) <==> args.Keys == set p | p in RequiredNames(TOOLS[i])
  {
    SchemasMatchForwarders();
  }
}
