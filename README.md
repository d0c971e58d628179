# redis-ai: the chat client's tool loop and the operations gateway, in Dafny

This project models the two halves of **redis-ai**, a language-model operator
console for a Redis deployment on Kubernetes.

- **The chat client** (`ai_redis_chat.py`). It offers the model five tool
  schemas and reads operator lines until `exit`. A reply that asks for tools
  makes it run each requested call through the dispatch table (`tool_map`),
  record the model's message and a `tool` message with the serialised result,
  and then ask the model once more, without tools, for a summary. A plain
  reply is recorded as an assistant message.
- **The operations gateway** (`app.py`). These are the HTTP handlers the
  tools call: get and set a key, flush the server, read replication info,
  list the pods and restart a pod. Each turns a backend result or exception
  into a JSON body or an HTTP error.

Files:

- `wrappers.dfy`: `Option` and `Result`.
- `json.dfy`: JSON values, with objects kept in insertion order as a Python
  dict keeps them.
- `registry.dfy`: the schema list, the dispatch table, and the five
  forwarders. A forwarder binds its keyword arguments and builds one HTTP
  request.
- `chat.dfy`: `chat()` itself.
  - `Chat`, `HandleLine` and `RunToolCalls` are the imperative loop, the loop
    body, and the inner `for` loop over the tool calls.
  - Each method is proved equal to a specification function: `Session`,
    `Turn` and `RunCalls`.
  - The lemmas state what a turn and a session do to the transcript.
- `gateway.dfy`: the handlers.
  - The Redis master is a class whose map of databases `Set` and `Flush`
    update.
  - `list_redis_pods` is a method that builds its list in a loop.
  - The other handlers are functions from backend outcomes to responses.

The model, the gateway and `json.dumps` are outside the chat client, so
`Chat` takes them as function parameters:

- `infer(transcript, withTools)` is the model's reply.
- `backend(transcript, request)` is what a request returns, or the message
  of the exception it raised.
- `dumps` is `json.dumps`.

Each call sees the transcript as it stands, and the transcript grows strictly
between two calls of the same kind. So every call may have its own answer,
and nothing is lost by taking these as functions.

The gateway's HTTP errors reach the chat client as ordinary JSON bodies
(`{"detail": ...}`), because the forwarders call `.json()` without checking
the status. They therefore count as successful tool results. Only an
exception in the client itself is a failure: one from `requests`, or an
unreadable body.

Behaviour of the code that the model keeps:

- **An unknown tool name ends the session.** `tool_map[name]`
  (`ai_redis_chat.py:129`) raises `KeyError` and nothing catches it, so
  `chat()` ends. The same holds for arguments that do not bind (TypeError)
  and for a failed request. `UnknownToolTurn` states this outcome.
- **Every requested call is recorded with its own copy of the model's
  message.** The model's tool-call message is appended once for every
  successful call, not once per reply (`ai_redis_chat.py:133`, inside the
  `for`). `ModelMessageRepeated` states this.
- **The exit test is exact.** `LowerChar` lowers ASCII letters only. No
  character outside ASCII lower-cases to a single e, x, i or t; U+0130
  lower-cases to two code points. So `IsExit` holds exactly when
  `user.lower() == "exit"`.
- **An empty tool-call list still triggers a summary.** A reply whose
  `tool_calls` key is present but holds an empty list runs no tool and still
  asks for a summary.

## Model

| member | source | states |
|---|---|---|
| ChatLoop.ExitSpellings | redis-ai/ai_redis_chat.py:106-108 | a line ends the session exactly when it is one of the sixteen capitalisations of "exit" |
| ChatLoop.CallStep | redis-ai/ai_redis_chat.py:123-138 | one tool call, by outcome. A name missing from `tool_map` raises `UnknownTool`, and arguments that do not bind raise `ArgumentMismatch`; both make no request. Otherwise exactly one request is made. A failure raises `ToolFailed` with its message, and a success appends exactly the model's message and a tool message named after the call with `dumps` of the result. A raise appends nothing |
| ChatLoop.RunCalls | redis-ai/ai_redis_chat.py:123-138 | the call loop only makes gateway requests, at most one per call. It appends at most two entries per call, and exactly 2n entries and n requests when no call raises |
| ChatLoop.Turn | redis-ai/ai_redis_chat.py:105-151 | a line stops the loop if and only if it is "exit". Any other line is sent to the model first, with tools, after being appended as a user message. An answered turn ends with an assistant message |
| ChatLoop.Session | redis-ai/ai_redis_chat.py:99-151 | the transcript never gets shorter over a session |
| ChatLoop.Chat | redis-ai/ai_redis_chat.py:99-151 | the while loop over the operator's lines gives exactly the transcript, calls and ending that `Session` specifies, starting from an empty transcript |
| ChatLoop.HandleLine | redis-ai/ai_redis_chat.py:106-151 | one iteration of the loop gives exactly the transcript, calls and status that `Turn` specifies |
| ChatLoop.RunToolCalls | redis-ai/ai_redis_chat.py:123-138 | the for loop over the tool calls gives exactly the transcript, requests and first fault that `RunCalls` specifies |
| ChatLoop.RunCall | redis-ai/ai_redis_chat.py:124-138 | one pass of the for loop's body gives exactly what `CallStep` specifies: it looks the tool up, binds the arguments, makes the request, then appends the model's message and the tool message, or raises |
| ChatLoop.TurnCrash | redis-ai/ai_redis_chat.py:123-129 | a turn whose k-th call raises ends with that fault and with what the loop recorded up to it |
| ChatLoop.RunCallsSucceeded | redis-ai/ai_redis_chat.py:123-138 | when no call raises, call i is in `tool_map`, its arguments bind, and its request is the i-th request. Its result is a success, and slots 2i and 2i+1 hold the model's message and the tool message with `dumps` of that result |
| ChatLoop.ReplyOncePerCall | redis-ai/ai_redis_chat.py:133-138 | the model's message occurs exactly once per successful call among the entries the loop appends |
| ChatLoop.RunCallsNoFault | redis-ai/ai_redis_chat.py:123-138 | when every call names a tool in `tool_map`, binds its arguments and gets an answer from the gateway, the call loop raises nothing |
| ChatLoop.ToolTurnAnswered | redis-ai/ai_redis_chat.py:122-146 | a reply whose calls all go through makes the turn end answered, its last entry the summary of the follow-up inference made without tools |
| ChatLoop.FaultSticks | redis-ai/ai_redis_chat.py:123-129 | once a call has raised, the calls after it never run |
| ChatLoop.RunCallsExtends | redis-ai/ai_redis_chat.py:133-138 | the call loop only appends to the transcript |
| ChatLoop.TurnAppendOnly | redis-ai/ai_redis_chat.py:110-151 | a turn only appends, and a turn that does not exit first appends the line as a user message |
| ChatLoop.ExitTurn | redis-ai/ai_redis_chat.py:106-108 | an exit line appends nothing and calls nothing |
| ChatLoop.TextReplyTurn | redis-ai/ai_redis_chat.py:148-151 | a reply without tool calls adds exactly the user message and one assistant message with the reply's content. It makes one inference and no request |
| ChatLoop.ToolCallTurn | redis-ai/ai_redis_chat.py:122-146 | with n successful calls the transcript grows by 1 + 2n + 1. Each call's pair holds the model's message and a tool message named after the call with its serialised result. The last entry is the summary of the follow-up inference |
| ChatLoop.ToolCallTurnEvents | redis-ai/ai_redis_chat.py:113-146 | with n successful calls the turn makes one inference with tools, then n requests, then exactly one inference without tools |
| ChatLoop.ToolTurnEntries | redis-ai/ai_redis_chat.py:110-146 | a turn whose calls all go through appends exactly the user message, what the call loop appended, and the summary |
| ChatLoop.ModelMessageRepeated | redis-ai/ai_redis_chat.py:123-138 | the model's tool-call message appears n times among the turn's new entries |
| ChatLoop.UnknownToolTurn | redis-ai/ai_redis_chat.py:123-129 | a tool name missing from `tool_map` ends the session with `UnknownTool`. The transcript is exactly what the earlier calls left, with nothing appended for this call |
| ChatLoop.UnknownToolTurnEvents | redis-ai/ai_redis_chat.py:123-129 | such a turn makes one request per earlier call, none for the unknown one, and no follow-up inference |
| ChatLoop.SessionStopsAtExit | redis-ai/ai_redis_chat.py:105-108 | lines after an exit are never read |
| ChatLoop.SessionAppendOnly | redis-ai/ai_redis_chat.py:103-151 | the starting transcript stays a prefix of the transcript for the whole session |
| ToolRegistry.SchemaNamesAreDispatchKeys | redis-ai/ai_redis_chat.py:31-95 | the schema names are pairwise distinct and equal the key set of `tool_map` |
| ToolRegistry.SchemasMatchForwarders | redis-ai/ai_redis_chat.py:9-95 | each schema's properties and required list are the parameters of the forwarder it dispatches to, in order |
| ToolRegistry.RequiredLists | redis-ai/ai_redis_chat.py:31-87 | `required` is ["key"], ["key","value"] and ["pod_name"] for redis_get, redis_set and restart_pod. It is absent for the other two tools |
| ToolRegistry.SchemaPredictsBinding | redis-ai/ai_redis_chat.py:31-129 | a call's arguments bind to its forwarder exactly when they are the names its schema marks required |
| ToolRegistry.ForwardSendsArguments | redis-ai/ai_redis_chat.py:9-28 | a bound forwarder sends every argument under its parameter's name. `redis_get` sends it as query parameters, encoded as `requests` encodes `params`; the others send it as a JSON body member |
| ToolRegistry.QueryValues | redis-ai/ai_redis_chat.py:10 | a `params` value of None sends nothing, and a string, number or boolean sends itself. A list sends its elements that are not None, each as often as it occurs, and a dict sends its keys in order |
| ToolRegistry.NonNull | redis-ai/ai_redis_chat.py:10 | the list elements `requests` sends: those that are not None, each as often as it occurs |
| ToolRegistry.NonNullAppend | redis-ai/ai_redis_chat.py:10 | the list elements are sent in the list's order: filtering a concatenation concatenates the filtered parts |
| ToolRegistry.KeyNames | redis-ai/ai_redis_chat.py:10 | a dict given as a parameter sends one entry per key, in order |
| ToolRegistry.RedisGetQuery | redis-ai/ai_redis_chat.py:9-10 | `redis_get` with a null key sends no `key` parameter, and with a string, number or boolean sends exactly that value. With a list it sends every non-null element under `key`, in order and with repeats, and nothing else |
| ToolRegistry.ForwarderEndpoints | redis-ai/ai_redis_chat.py:5-28 | each forwarder calls its own gateway path under `OPS_API_BASE`, with GET or POST as written |
| OpsGateway.RedisMaster.Get | redis-ai/app.py:59-65 | echoes the key with its value in the selected database, or null when the key is absent. A client failure is a 500 with the exception's message |
| OpsGateway.RedisMaster.Set | redis-ai/app.py:68-74 | on success the selected database maps the key to the value, nothing else changes, and the response is {"status":"ok", key, value}. On failure nothing changes and the response is a 500 |
| OpsGateway.RedisMaster.Flush | redis-ai/app.py:77-84 | on success every database is empty and the response is {"status":"flushed_all_databases"}. On failure nothing changes and the response is a 500 |
| OpsGateway.SetThenGet | redis-ai/app.py:59-74 | a get after a set reads back the value just written, and a get of any other key is unaffected |
| OpsGateway.FlushThenGet | redis-ai/app.py:59-84 | after a flush every key reads as null |
| OpsGateway.ReplicationInfo | redis-ai/app.py:87-97 | both info blocks are returned if and only if both reads succeed. Otherwise the response is a 500 for the first failure, the master's taking precedence |
| OpsGateway.ContainerNames | redis-ai/app.py:112 | the container names in order, one per container |
| OpsGateway.PodEntry | redis-ai/app.py:107-113 | a pod's summary has exactly five members: name, phase, host_ip, pod_ip and the container names. An unset phase or address is null |
| OpsGateway.ListRedisPods | redis-ai/app.py:101-116 | one summary per pod, same length and order as the listing. A failed listing, an ApiException included, is a 500 with its message |
| OpsGateway.RestartPod | redis-ai/app.py:119-131 | on success the response is {"status":"restarted","pod":name}. An ApiException keeps its own status and body, and any other failure is a 500 |
| OpsGateway.Healthz | redis-ai/app.py:134-136 | always {"status":"ok"} |

## Left out

- The language model (`ollama.chat`) and the HTTP client (`requests`) are the `infer` and `backend` parameters.
  - Failures of the model call itself are not modelled.
  - Only the `.json()` body of a request is modelled.
- `json.dumps` is the `dumps` parameter; its exact text is not modelled.
- Console I/O: the banner, the prompts and the `print` calls are left out. The operator's lines are a sequence, and running out of them (EOFError) ends the session as `InputExhausted`.
- Interrupts and concurrency (the gateway delegates concurrency to its framework) are not modelled.
- ToolRegistry.QueryValues: keeps each query parameter as a JSON value. The text `requests` renders it as is not modelled, for example `str()` of a number or "True" for a boolean. A list element that is itself a list or a dict is sent as one value; `urlencode` would expand it again (`{"key": [[1, 2]]}` sends `key=1&key=2`).
- JSON numbers are integers only. `INFO replication` can hold floats (a replica's `master_sync_perc` during a sync), and a tool call's arguments can hold any JSON number. The model cannot represent these; no property depends on the kind of number.
- OpsGateway.RedisMaster.Set: assumes a client failure happens before the command reaches the server, so a failed set or flush changes nothing. A reply lost after the write is not modelled.
- OpsGateway.ReplicationInfo: takes both read results as inputs, so it does not capture that the replica is never read when the master's read raises. Only which exception becomes the 500 is stated.
- Redis replication itself, the content of `INFO replication`, and value types other than strings (a WRONGTYPE error is one of the client failures) are not modelled.
- OpsGateway.RestartPod: an ApiException without a status or body (`None`) is not modelled; the model takes both as present.
- The controller that recreates a deleted pod is outside this code.
- Loading the Kubernetes configuration, building the Redis and Kubernetes clients, and reading the environment variables (`app.py:14-45`) are configuration. Only the selected database number (`REDIS_DB`) appears, as `RedisMaster.db`.
- FastAPI routing and pydantic validation of request bodies (`app.py:7-11`, `app.py:49-55`) are transport plumbing; the handlers receive already-validated strings.
- An exception while reading a pod's attributes inside the listing loop is not modelled; the listing's pods are taken as well-formed.
