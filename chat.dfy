/**
  The interactive loop `chat()` of the chat client.  It keeps one transcript
  (`messages`) for the whole session and, for every operator line, either
  stops (on `exit`), or appends the line as a user message and asks the model
  for a reply.  A reply that carries `tool_calls` makes the loop run every
  requested tool through the dispatch table, appending the model's message and
  a `tool` message per call, and then ask the model once more, without tools,
  for a summary that it appends; any other reply is appended as text.

  The model and the tools are outside this code, so they are parameters:
    - `infer(transcript, withTools)` is the model's reply to one chat request;
    - `backend(transcript, request)` is what one forwarder's HTTP request
      returns (`.json()`), or the message of the exception it raised;
    - `dumps` is `json.dumps`.
  Each of them gets the transcript as it stands when the call is made.  The
  transcript grows strictly between two calls of the same kind, so taking a
  function of it loses no generality: every call may get its own answer.
 */
module ChatLoop {
  import opened Wrappers
  import opened Json
  import opened ToolRegistry

  datatype Role = UserRole | AssistantRole | ToolRole

  /** One entry of a reply's `tool_calls`: `call["function"]["name"]` and `["arguments"]`. */
  datatype ToolCall = ToolCall(name: string, arguments: map<string, Value>)

  /**
    A transcript entry.  `toolCalls` is `None` when the message has no
    "tool_calls" key; `name` is set on tool messages only.
   */
  datatype Message = Message(
    role: Role,
    content: string,
    toolCalls: Option<seq<ToolCall>>,
    name: Option<string>)

  function UserMessage(line: string): Message
  {
    Message(UserRole, line, None, None)
  }

  function AssistantMessage(content: string): Message
  {
    Message(AssistantRole, content, None, None)
  }

  function ToolMessage(name: string, content: string): Message
  {
    Message(ToolRole, content, None, Some(name))
  }

  type Inference = (seq<Message>, bool) -> Message
  type ToolBackend = (seq<Message>, HttpRequest) -> Result<Value, string>
  type Serialise = Value -> string

  /** The calls the loop makes to the outside world, in order. */
  datatype Event =
    | Infer(transcript: seq<Message>, withTools: bool)
    | Request(request: HttpRequest)

  /**
    Exceptions raised while running a tool call.  None of them is caught, so
    each one ends `chat()`: a name missing from `tool_map` (KeyError),
    arguments that do not bind to the forwarder (TypeError), and a failed
    request or an unreadable response from the gateway.
   */
  datatype Fault =
    | UnknownTool(name: string)
    | ArgumentMismatch(name: string)
    | ToolFailed(name: string, message: string)

  datatype Status = Exited | Answered | Crashed(fault: Fault)

  datatype TurnOutcome = TurnOutcome(transcript: seq<Message>, events: seq<Event>, status: Status)

  /** The state of a turn's tool-call loop: transcript so far, requests made, first fault. */
  datatype Progress = Progress(transcript: seq<Message>, events: seq<Event>, fault: Option<Fault>)

  /**
    How a session ends: the operator typed `exit`, the input ran out (EOFError
    from `input`), or a tool call raised.
   */
  datatype End = ExitRequested | InputExhausted | Aborted(fault: Fault)

  datatype SessionOutcome = SessionOutcome(transcript: seq<Message>, events: seq<Event>, end: End)

  // ---------------------------------------------------------------------------
  // Recognising `exit`
  // ---------------------------------------------------------------------------

  function LowerChar(c: char): char
  {
    if 'A' <= c <= 'Z' then (c as int + 32) as char else c
  }

  /** `line.lower() == "exit"`: four characters that lower-case to e, x, i, t. */
  predicate IsExit(line: string)
  {
    && |line| == 4
    && LowerChar(line[0]) == 'e' && LowerChar(line[1]) == 'x'
    && LowerChar(line[2]) == 'i' && LowerChar(line[3]) == 't'
  }

  /** Exactly the sixteen capitalisations of "exit" end the session. */
  lemma ExitSpellings(line: string)
    ensures IsExit(line) <==>
      |line| == 4 && line[0] in "eE" && line[1] in "xX" && line[2] in "iI" && line[3] in "tT"
  {
  }

  // ---------------------------------------------------------------------------
  // One turn
  // ---------------------------------------------------------------------------

  /** One pass of the `for call in message["tool_calls"]` body, run while nothing has failed. */
  function CallStep(p: Progress, reply: Message, call: ToolCall, backend: ToolBackend, dumps: Serialise): (q: Progress)
    requires p.fault.None?
    ensures q.fault.None? ==>
      |q.transcript| == |p.transcript| + 2 && q.transcript == p.transcript + [reply, ToolMessage(call.name, q.transcript[|p.transcript| + 1].content)]
    ensures q.fault.Some? ==> q.transcript == p.transcript
    ensures call.name !in TOOL_MAP ==>
      q.fault == Some(UnknownTool(call.name)) && q.events == p.events
    ensures call.name in TOOL_MAP && Forward(TOOL_MAP[call.name], call.arguments).None? ==>
      q.fault == Some(ArgumentMismatch(call.name)) && q.events == p.events
    ensures call.name in TOOL_MAP && Forward(TOOL_MAP[call.name], call.arguments).Some? ==>
      var request := Forward(TOOL_MAP[call.name], call.arguments).value;
      var result := backend(p.transcript, request);
      && q.events == p.events + [Request(request)]
      && (result.Failure? ==> q.fault == Some(ToolFailed(call.name, result.error)))
      && (result.Success? ==>
            q.fault.None? && q.transcript == p.transcript + [reply, ToolMessage(call.name, dumps(result.value))])
  {
    if call.name !in TOOL_MAP then
      p.(fault := Some(UnknownTool(call.name)))
    else
      match Forward(TOOL_MAP[call.name], call.arguments)
      case None =>
        p.(fault := Some(ArgumentMismatch(call.name)))
      case Some(request) =>
        match backend(p.transcript, request)
        case Failure(message) =>
          Progress(p.transcript, p.events + [Request(request)], Some(ToolFailed(call.name, message)))
        case Success(result) =>
          Progress(p.transcript + [reply, ToolMessage(call.name, dumps(result))], p.events + [Request(request)], None)
  }

  /**
    The tool-call loop over `calls`, starting from transcript `t`: the calls
    run in order and the first one that raises stops the loop.  It makes only
    requests to the gateway, at most one per call, and appends two entries per
    call that goes through.
   */
  function RunCalls(t: seq<Message>, reply: Message, calls: seq<ToolCall>, backend: ToolBackend, dumps: Serialise): (p: Progress)
    decreases |calls|
    ensures |t| <= |p.transcript| <= |t| + 2 * |calls|
    ensures |p.events| <= |calls|
    ensures forall j :: 0 <= j < |p.events| ==> p.events[j].Request?
    ensures p.fault.None? ==> |p.transcript| == |t| + 2 * |calls| && |p.events| == |calls|
  {
    if calls == [] then Progress(t, [], None)
    else
      var p := RunCalls(t, reply, calls[..|calls| - 1], backend, dumps);
      if p.fault.Some? then p else CallStep(p, reply, calls[|calls| - 1], backend, dumps)
  }

  /** One iteration of the `while True` loop of `chat()`, on operator line `line`. */
  function Turn(t: seq<Message>, line: string, infer: Inference, backend: ToolBackend, dumps: Serialise): (r: TurnOutcome)
    ensures r.status.Exited? <==> IsExit(line)
    ensures !IsExit(line) ==>
      && |r.transcript| > |t|
      && |r.events| > 0 && r.events[0] == Infer(t + [UserMessage(line)], true)
    ensures r.status.Answered? ==>
      |r.transcript| >= |t| + 2 && r.transcript[|r.transcript| - 1].role == AssistantRole
  {
    if IsExit(line) then TurnOutcome(t, [], Exited)
    else
      var t1 := t + [UserMessage(line)];
      var reply := infer(t1, true);
      match reply.toolCalls
      case None =>
        TurnOutcome(t1 + [AssistantMessage(reply.content)], [Infer(t1, true)], Answered)
      case Some(calls) =>
        var p := RunCalls(t1, reply, calls, backend, dumps);
        if p.fault.Some? then
          TurnOutcome(p.transcript, [Infer(t1, true)] + p.events, Crashed(p.fault.value))
        else
          var final := infer(p.transcript, false);
          TurnOutcome(p.transcript + [AssistantMessage(final.content)],
                      [Infer(t1, true)] + p.events + [Infer(p.transcript, false)], Answered)
  }

  // ---------------------------------------------------------------------------
  // The session
  // ---------------------------------------------------------------------------

  /** The session from transcript `t` on, reading the operator lines `lines` in order. */
  function Session(t: seq<Message>, lines: seq<string>, infer: Inference, backend: ToolBackend, dumps: Serialise): (s: SessionOutcome)
    decreases |lines|
    ensures |t| <= |s.transcript|
  {
    if lines == [] then SessionOutcome(t, [], InputExhausted)
    else
      var r := Turn(t, lines[0], infer, backend, dumps);
      match r.status
      case Exited => SessionOutcome(r.transcript, r.events, ExitRequested)
      case Crashed(f) => SessionOutcome(r.transcript, r.events, Aborted(f))
      case Answered =>
        var rest := Session(r.transcript, lines[1..], infer, backend, dumps);
        SessionOutcome(rest.transcript, r.events + rest.events, rest.end)
  }

  /**
    `chat()`: starts from an empty transcript and handles one operator line
    per iteration until a line says `exit`, a tool call raises, or the input
    runs out.
   */
  method Chat(lines: seq<string>, infer: Inference, backend: ToolBackend, dumps: Serialise)
    returns (messages: seq<Message>, events: seq<Event>, end: End)
    ensures SessionOutcome(messages, events, end) == Session([], lines, infer, backend, dumps)
  {
    messages, events := [], [];
    ghost var whole := Session([], lines, infer, backend, dumps);
    var i := 0;
    while true
      invariant 0 <= i <= |lines|
      invariant var s := Session(messages, lines[i..], infer, backend, dumps);
        SessionOutcome(s.transcript, events + s.events, s.end) == whole
      decreases |lines| - i
    {
      if i == |lines| {
        return messages, events, InputExhausted;
      }
      SessionAdvance(messages, events, lines, i, infer, backend, dumps);
      var turnEvents, status;
      messages, turnEvents, status := HandleLine(messages, lines[i], infer, backend, dumps);
      events := events + turnEvents;
      match status {
        case Exited =>
          return messages, events, ExitRequested;
        case Crashed(fault) =>
          return messages, events, Aborted(fault);
        case Answered =>
      }
      i := i + 1;
    }
  }

  /**
    The body of the `while True` loop for one operator line: the transcript
    afterwards, the calls made to the model and the gateway, and whether the
    session goes on.
   */
  method HandleLine(messages: seq<Message>, user: string, infer: Inference, backend: ToolBackend, dumps: Serialise)
    returns (transcript: seq<Message>, events: seq<Event>, status: Status)
    ensures TurnOutcome(transcript, events, status) == Turn(messages, user, infer, backend, dumps)
  {
    if IsExit(user) {
      return messages, [], Exited;
    }
    var t1 := messages + [UserMessage(user)];
    var message := infer(t1, true);
    if message.toolCalls.None? {
      return t1 + [AssistantMessage(message.content)], [Infer(t1, true)], Answered;
    }
    var requests, fault;
    transcript, requests, fault := RunToolCalls(t1, message, message.toolCalls.value, backend, dumps);
    events := [Infer(t1, true)] + requests;
    if fault.Some? {
      return transcript, events, Crashed(fault.value);
    }
    var final := infer(transcript, false);
    events := events + [Infer(transcript, false)];
    transcript := transcript + [AssistantMessage(final.content)];
    status := Answered;
  }

  /**
    The `for call in message["tool_calls"]` loop, from transcript `t`: the
    transcript afterwards, the requests made to the gateway, and the
    exception that stopped the loop, if one did.
   */
  method RunToolCalls(t: seq<Message>, message: Message, calls: seq<ToolCall>, backend: ToolBackend, dumps: Serialise)
    returns (transcript: seq<Message>, requests: seq<Event>, fault: Option<Fault>)
    ensures Progress(transcript, requests, fault) == RunCalls(t, message, calls, backend, dumps)
  {
    transcript, requests, fault := t, [], None;
    var k := 0;
    while k < |calls|
      invariant 0 <= k <= |calls|
      invariant Progress(transcript, requests, None) == RunCalls(t, message, calls[..k], backend, dumps)
    {
      RunCallsNext(t, message, calls, k, backend, dumps);
      var stopped;
      transcript, requests, stopped := RunCall(transcript, requests, message, calls[k], backend, dumps);
      if stopped.Some? {
        FaultSticks(t, message, calls, k + 1, backend, dumps);
        return transcript, requests, stopped;
      }
      k := k + 1;
    }
    assert calls[..k] == calls;
  }

  /**
    The body of the tool-call loop for one call: look the tool up in
    `tool_map`, call its forwarder with the call's arguments, and append the
    model's message and the tool message with the serialised result.  A
    missing tool, arguments that do not bind and a failed request each raise.
   */
  method RunCall(t: seq<Message>, requests: seq<Event>, message: Message, call: ToolCall,
                 backend: ToolBackend, dumps: Serialise)
    returns (transcript: seq<Message>, requests': seq<Event>, fault: Option<Fault>)
    ensures Progress(transcript, requests', fault) == CallStep(Progress(t, requests, None), message, call, backend, dumps)
  {
    transcript, requests' := t, requests;
    var name := call.name;
    if name !in TOOL_MAP {
      return transcript, requests', Some(UnknownTool(name));
    }
    var request := Forward(TOOL_MAP[name], call.arguments);
    if request.None? {
      return transcript, requests', Some(ArgumentMismatch(name));
    }
    requests' := requests' + [Request(request.value)];
    var result := backend(transcript, request.value);
    if result.Failure? {
      return transcript, requests', Some(ToolFailed(name, result.error));
    }
    transcript := transcript + [message];
    transcript := transcript + [ToolMessage(name, dumps(result.value))];
    fault := None;
  }

  /** The tool-call loop over one more call, when the calls before it went through. */
  lemma RunCallsNext(t: seq<Message>, reply: Message, calls: seq<ToolCall>, k: nat, backend: ToolBackend, dumps: Serialise)
    requires k < |calls|
    requires RunCalls(t, reply, calls[..k], backend, dumps).fault.None?
    ensures RunCalls(t, reply, calls[..k + 1], backend, dumps) ==
      CallStep(RunCalls(t, reply, calls[..k], backend, dumps), reply, calls[k], backend, dumps)
  {
    assert calls[..k + 1][..k] == calls[..k] && calls[..k + 1][k] == calls[k];
  }

  /** How the session's outcome is made of its first turn's and the rest's. */
  lemma SessionStep(t: seq<Message>, lines: seq<string>, infer: Inference, backend: ToolBackend, dumps: Serialise)
    requires |lines| > 0
    ensures var r := Turn(t, lines[0], infer, backend, dumps);
      var s := Session(t, lines, infer, backend, dumps);
      && (r.status.Exited? ==> s == SessionOutcome(r.transcript, r.events, ExitRequested))
      && (r.status.Crashed? ==> s == SessionOutcome(r.transcript, r.events, Aborted(r.status.fault)))
      && (r.status.Answered? ==>
            var rest := Session(r.transcript, lines[1..], infer, backend, dumps);
            s == SessionOutcome(rest.transcript, r.events + rest.events, rest.end))
  {
  }

  /**
    The loop of `chat()` after handling line `i` with `events` already made:
    the session's outcome from there on, in terms of that line's turn.
   */
  lemma SessionAdvance(t: seq<Message>, events: seq<Event>, lines: seq<string>, i: nat,
                       infer: Inference, backend: ToolBackend, dumps: Serialise)
    requires i < |lines|
    ensures var r := Turn(t, lines[i], infer, backend, dumps);
      var s := Session(t, lines[i..], infer, backend, dumps);
      var total := SessionOutcome(s.transcript, events + s.events, s.end);
      && (r.status.Exited? ==> total == SessionOutcome(r.transcript, events + r.events, ExitRequested))
      && (r.status.Crashed? ==> total == SessionOutcome(r.transcript, events + r.events, Aborted(r.status.fault)))
      && (r.status.Answered? ==>
            var rest := Session(r.transcript, lines[i + 1..], infer, backend, dumps);
            total == SessionOutcome(rest.transcript, (events + r.events) + rest.events, rest.end))
  {
    assert lines[i..][0] == lines[i] && lines[i..][1..] == lines[i + 1..];
    SessionStep(t, lines[i..], infer, backend, dumps);
    var r := Turn(t, lines[i], infer, backend, dumps);
    var rest := Session(r.transcript, lines[i + 1..], infer, backend, dumps);
    assert events + (r.events + rest.events) == (events + r.events) + rest.events;
  }

  /** A turn whose tool call number `k` raised, after the earlier ones went through. */
  lemma TurnCrash(t: seq<Message>, line: string, infer: Inference, backend: ToolBackend, dumps: Serialise, k: nat)
    requires !IsExit(line)
    requires var reply := infer(t + [UserMessage(line)], true);
      && reply.toolCalls.Some? && k < |reply.toolCalls.value|
      && RunCalls(t + [UserMessage(line)], reply, reply.toolCalls.value[..k + 1], backend, dumps).fault.Some?
    ensures var t1 := t + [UserMessage(line)];
      var reply := infer(t1, true);
      var p := RunCalls(t1, reply, reply.toolCalls.value[..k + 1], backend, dumps);
      Turn(t, line, infer, backend, dumps) == TurnOutcome(p.transcript, [Infer(t1, true)] + p.events, Crashed(p.fault.value))
  {
    var t1 := t + [UserMessage(line)];
    var reply := infer(t1, true);
    FaultSticks(t1, reply, reply.toolCalls.value, k + 1, backend, dumps);
  }

  // ---------------------------------------------------------------------------
  // Properties of a turn
  // ---------------------------------------------------------------------------

  /**
    Tool call number `i` of a turn ran and was recorded: its name is in the
    dispatch table, its arguments bound, its request is the `i`-th request of
    the turn, it returned a result, and the transcript holds the model's
    message and then the tool message carrying the serialised result, at the
    `i`-th pair of slots after position `base`.
   */
  predicate ExecutedAt(transcript: seq<Message>, requests: seq<Event>, base: nat, reply: Message,
                       call: ToolCall, i: nat, backend: ToolBackend, dumps: Serialise)
  {
    && call.name in TOOL_MAP
    && Forward(TOOL_MAP[call.name], call.arguments).Some?
    && base + 2 * i + 2 <= |transcript|
    && i < |requests|
    && var request := Forward(TOOL_MAP[call.name], call.arguments).value;
       var result := backend(transcript[..base + 2 * i], request);
       && requests[i] == Request(request)
       && result.Success?
       && transcript[base + 2 * i] == reply
       && transcript[base + 2 * i + 1] == ToolMessage(call.name, dumps(result.value))
  }

  /** What a call has recorded stays recorded when the transcript and the requests grow. */
  lemma ExecutedAtGrows(transcript: seq<Message>, requests: seq<Event>, transcript': seq<Message>, requests': seq<Event>,
                        base: nat, reply: Message, call: ToolCall, i: nat, backend: ToolBackend, dumps: Serialise)
    requires ExecutedAt(transcript, requests, base, reply, call, i, backend, dumps)
    requires transcript <= transcript' && requests <= requests'
    ensures ExecutedAt(transcript', requests', base, reply, call, i, backend, dumps)
  {
    assert transcript'[..base + 2 * i] == transcript[..base + 2 * i];
  }

  /**
    When no call of the loop raised, the loop appended exactly one pair per
    call, in order, made one request per call, and (when the model's message
    is a tool-call message) that message occurs exactly once per call.
   */
  lemma {:induction false} RunCallsSucceeded(t: seq<Message>, reply: Message, calls: seq<ToolCall>,
                                             backend: ToolBackend, dumps: Serialise)
    requires RunCalls(t, reply, calls, backend, dumps).fault.None?
    ensures var p := RunCalls(t, reply, calls, backend, dumps);
      && |p.transcript| == |t| + 2 * |calls|
      && |p.events| == |calls|
      && (forall i :: 0 <= i < |calls| ==> ExecutedAt(p.transcript, p.events, |t|, reply, calls[i], i, backend, dumps))
  {
    if calls != [] {
      var n := |calls|;
      var prefix := calls[..n - 1];
      var p := RunCalls(t, reply, prefix, backend, dumps);
      var q := RunCalls(t, reply, calls, backend, dumps);
      assert p.fault.None?;
      RunCallsSucceeded(t, reply, prefix, backend, dumps);
      assert q == CallStep(p, reply, calls[n - 1], backend, dumps);
      var call := calls[n - 1];
      var request := Forward(TOOL_MAP[call.name], call.arguments).value;
      var result := backend(p.transcript, request);
      assert q.transcript == p.transcript + [reply, ToolMessage(call.name, dumps(result.value))];
      assert q.events == p.events + [Request(request)];
      forall i | 0 <= i < n
        ensures ExecutedAt(q.transcript, q.events, |t|, reply, calls[i], i, backend, dumps)
      {
        if i < n - 1 {
          assert prefix[i] == calls[i];
          ExecutedAtGrows(p.transcript, p.events, q.transcript, q.events, |t|, reply, calls[i], i, backend, dumps);
        } else {
          assert q.transcript[..|t| + 2 * i] == p.transcript;
        }
      }
    }
  }

  /**
    Each call that goes through appends the model's message once more, and
    nothing else it appends is that message.
   */
  lemma {:induction false} ReplyOncePerCall(t: seq<Message>, reply: Message, calls: seq<ToolCall>,
                                            backend: ToolBackend, dumps: Serialise)
    requires reply.toolCalls.Some?
    requires RunCalls(t, reply, calls, backend, dumps).fault.None?
    ensures multiset(RunCalls(t, reply, calls, backend, dumps).transcript[|t|..])[reply] == |calls|
  {
    if calls != [] {
      var prefix := calls[..|calls| - 1];
      var p := RunCalls(t, reply, prefix, backend, dumps);
      var q := RunCalls(t, reply, calls, backend, dumps);
      assert p.fault.None?;
      ReplyOncePerCall(t, reply, prefix, backend, dumps);
      var added := q.transcript[|p.transcript| + 1];
      assert q.transcript == p.transcript + [reply, added];
      assert q.transcript[|t|..] == p.transcript[|t|..] + [reply, added];
      assert added.toolCalls.None?;
    } else {
      assert RunCalls(t, reply, calls, backend, dumps).transcript[|t|..] == [];
    }
  }

  /**
    A call that goes through whatever the transcript: its tool is in
    `tool_map`, its arguments bind, and the gateway answers its request.
   */
  ghost predicate Runs(call: ToolCall, backend: ToolBackend)
  {
    && call.name in TOOL_MAP
    && Forward(TOOL_MAP[call.name], call.arguments).Some?
    && forall transcript :: backend(transcript, Forward(TOOL_MAP[call.name], call.arguments).value).Success?
  }

  /** When every call goes through, the tool-call loop raises nothing. */
  lemma {:induction false} RunCallsNoFault(t: seq<Message>, reply: Message, calls: seq<ToolCall>,
                                           backend: ToolBackend, dumps: Serialise)
    requires forall i :: 0 <= i < |calls| ==> Runs(calls[i], backend)
    ensures RunCalls(t, reply, calls, backend, dumps).fault.None?
    decreases |calls|
  {
    if calls != [] {
      var prefix := calls[..|calls| - 1];
      assert forall i :: 0 <= i < |prefix| ==> prefix[i] == calls[i];
      RunCallsNoFault(t, reply, prefix, backend, dumps);
      var p := RunCalls(t, reply, prefix, backend, dumps);
      var call := calls[|calls| - 1];
      assert Runs(call, backend);
      assert backend(p.transcript, Forward(TOOL_MAP[call.name], call.arguments).value).Success?;
    }
  }

  /**
    A reply whose tool calls all go through makes the turn end answered,
    with the summary of the follow-up inference as its last entry.
   */
  lemma ToolTurnAnswered(t: seq<Message>, line: string, infer: Inference, backend: ToolBackend, dumps: Serialise)
    requires !IsExit(line)
    requires var reply := infer(t + [UserMessage(line)], true);
      && reply.toolCalls.Some?
      && forall i :: 0 <= i < |reply.toolCalls.value| ==> Runs(reply.toolCalls.value[i], backend)
    ensures var r := Turn(t, line, infer, backend, dumps);
      && r.status == Answered
      && r.transcript[|r.transcript| - 1] == AssistantMessage(infer(r.transcript[..|r.transcript| - 1], false).content)
  {
    var t1 := t + [UserMessage(line)];
    var reply := infer(t1, true);
    RunCallsNoFault(t1, reply, reply.toolCalls.value, backend, dumps);
    ToolTurnResult(t, line, infer, backend, dumps);
    var p := RunCalls(t1, reply, reply.toolCalls.value, backend, dumps);
    var r := Turn(t, line, infer, backend, dumps);
    assert r.transcript[..|r.transcript| - 1] == p.transcript;
  }

  /** Once a call has raised, the later calls are never run: the loop's outcome is fixed. */
  lemma {:induction false} FaultSticks(t: seq<Message>, reply: Message, calls: seq<ToolCall>, m: nat,
                                       backend: ToolBackend, dumps: Serialise)
    requires m <= |calls|
    requires RunCalls(t, reply, calls[..m], backend, dumps).fault.Some?
    ensures RunCalls(t, reply, calls, backend, dumps) == RunCalls(t, reply, calls[..m], backend, dumps)
    decreases |calls|
  {
    if m < |calls| {
      var prefix := calls[..|calls| - 1];
      assert prefix[..m] == calls[..m];
      FaultSticks(t, reply, prefix, m, backend, dumps);
    } else {
      assert calls[..m] == calls;
    }
  }

  /** The tool-call loop only appends: the transcript it starts from stays a prefix. */
  lemma {:induction false} RunCallsExtends(t: seq<Message>, reply: Message, calls: seq<ToolCall>,
                                           backend: ToolBackend, dumps: Serialise)
    ensures RunCalls(t, reply, calls, backend, dumps).transcript[..|t|] == t
    decreases |calls|
  {
    if calls != [] {
      var p := RunCalls(t, reply, calls[..|calls| - 1], backend, dumps);
      RunCallsExtends(t, reply, calls[..|calls| - 1], backend, dumps);
      if p.fault.None? {
        var q := CallStep(p, reply, calls[|calls| - 1], backend, dumps);
        assert q.transcript[..|p.transcript|] == p.transcript;
        assert q.transcript[..|t|] == q.transcript[..|p.transcript|][..|t|];
      }
    }
  }

  /**
    A turn only appends to the transcript, and every turn that does not exit
    first appends the operator's line as a user message.
   */
  lemma TurnAppendOnly(t: seq<Message>, line: string, infer: Inference, backend: ToolBackend, dumps: Serialise)
    ensures var r := Turn(t, line, infer, backend, dumps);
      && r.transcript[..|t|] == t
      && (!IsExit(line) ==> r.transcript[|t|] == UserMessage(line))
  {
    if !IsExit(line) {
      var t1 := t + [UserMessage(line)];
      var reply := infer(t1, true);
      var r := Turn(t, line, infer, backend, dumps);
      var extra: seq<Message>;
      if reply.toolCalls.Some? {
        var p := RunCalls(t1, reply, reply.toolCalls.value, backend, dumps);
        RunCallsExtends(t1, reply, reply.toolCalls.value, backend, dumps);
        extra := if p.fault.Some? then [] else [AssistantMessage(infer(p.transcript, false).content)];
        assert r.transcript == p.transcript + extra;
        assert p.transcript == t1 + p.transcript[|t1|..];
        extra := p.transcript[|t1|..] + extra;
      } else {
        extra := [AssistantMessage(reply.content)];
      }
      assert r.transcript == t + [UserMessage(line)] + extra;
    }
  }

  /** An operator line that lower-cases to "exit" ends the loop and touches nothing. */
  lemma ExitTurn(t: seq<Message>, line: string, infer: Inference, backend: ToolBackend, dumps: Serialise)
    requires IsExit(line)
    ensures Turn(t, line, infer, backend, dumps) == TurnOutcome(t, [], Exited)
  {
  }

  /**
    A reply without `tool_calls` adds the user message and one assistant
    message with the reply's content, and makes no request.
   */
  lemma TextReplyTurn(t: seq<Message>, line: string, infer: Inference, backend: ToolBackend, dumps: Serialise)
    requires !IsExit(line)
    requires infer(t + [UserMessage(line)], true).toolCalls.None?
    ensures var r := Turn(t, line, infer, backend, dumps);
      && r.status == Answered
      && r.transcript == t + [UserMessage(line), AssistantMessage(infer(t + [UserMessage(line)], true).content)]
      && r.events == [Infer(t + [UserMessage(line)], true)]
  {
  }

  /** A turn whose reply's tool calls all went through, in terms of the tool-call loop. */
  lemma ToolTurnResult(t: seq<Message>, line: string, infer: Inference, backend: ToolBackend, dumps: Serialise)
    requires !IsExit(line)
    requires var reply := infer(t + [UserMessage(line)], true);
      && reply.toolCalls.Some?
      && RunCalls(t + [UserMessage(line)], reply, reply.toolCalls.value, backend, dumps).fault.None?
    ensures var t1 := t + [UserMessage(line)];
      var reply := infer(t1, true);
      var p := RunCalls(t1, reply, reply.toolCalls.value, backend, dumps);
      Turn(t, line, infer, backend, dumps) ==
        TurnOutcome(p.transcript + [AssistantMessage(infer(p.transcript, false).content)],
                    [Infer(t1, true)] + p.events + [Infer(p.transcript, false)], Answered)
  {
  }

  /**
    A reply with n tool calls that all go through: the transcript grows by
    1 + 2n + 1 (the user message, a model-message/tool-message pair per call
    in order, each tool message carrying the serialised result of that call's
    request, then the summary), and the summary is the content of the
    follow-up inference made without tools on the transcript as it stood.
   */
  lemma ToolCallTurn(t: seq<Message>, line: string, infer: Inference, backend: ToolBackend, dumps: Serialise)
    requires !IsExit(line)
    requires infer(t + [UserMessage(line)], true).toolCalls.Some?
    requires Turn(t, line, infer, backend, dumps).status == Answered
    ensures var t1 := t + [UserMessage(line)];
      var reply := infer(t1, true);
      var calls := reply.toolCalls.value;
      var n := |calls|;
      var r := Turn(t, line, infer, backend, dumps);
      && |r.transcript| == |t| + 1 + 2 * n + 1
      && r.transcript[..|t| + 1] == t1
      && (forall i :: 0 <= i < n ==> ExecutedAt(r.transcript, r.events[1..], |t| + 1, reply, calls[i], i, backend, dumps))
      && r.transcript[|t| + 2 * n + 1] == AssistantMessage(infer(r.transcript[..|t| + 2 * n + 1], false).content)
  {
    var t1 := t + [UserMessage(line)];
    var reply := infer(t1, true);
    var calls := reply.toolCalls.value;
    var n := |calls|;
    var p := RunCalls(t1, reply, calls, backend, dumps);
    assert p.fault.None?;
    ToolTurnResult(t, line, infer, backend, dumps);
    RunCallsSucceeded(t1, reply, calls, backend, dumps);
    RunCallsExtends(t1, reply, calls, backend, dumps);
    var r := Turn(t, line, infer, backend, dumps);
    assert r.transcript[..|t| + 2 * n + 1] == p.transcript;
    assert r.transcript[..|t| + 1] == p.transcript[..|t1|];
    assert r.transcript == p.transcript + [AssistantMessage(infer(p.transcript, false).content)];
    var later := p.events + [Infer(p.transcript, false)];
    assert [Infer(t1, true)] + p.events + [Infer(p.transcript, false)] == [Infer(t1, true)] + later;
    assert r.events[1..] == later;
    assert p.transcript <= r.transcript && p.events <= r.events[1..];
    forall i | 0 <= i < n
      ensures ExecutedAt(r.transcript, r.events[1..], |t| + 1, reply, calls[i], i, backend, dumps)
    {
      ExecutedAtGrows(p.transcript, p.events, r.transcript, r.events[1..], |t| + 1, reply, calls[i], i, backend, dumps);
    }
  }

  /**
    The calls a turn with n successful tool calls makes: one inference with
    tools, then the n requests, then exactly one inference without tools.
   */
  lemma ToolCallTurnEvents(t: seq<Message>, line: string, infer: Inference, backend: ToolBackend, dumps: Serialise)
    requires !IsExit(line)
    requires infer(t + [UserMessage(line)], true).toolCalls.Some?
    requires Turn(t, line, infer, backend, dumps).status == Answered
    ensures var t1 := t + [UserMessage(line)];
      var n := |infer(t1, true).toolCalls.value|;
      var r := Turn(t, line, infer, backend, dumps);
      && |r.events| == n + 2
      && r.events[0] == Infer(t1, true)
      && (forall i :: 1 <= i <= n ==> r.events[i].Request?)
      && r.events[n + 1] == Infer(r.transcript[..|r.transcript| - 1], false)
  {
    var t1 := t + [UserMessage(line)];
    var reply := infer(t1, true);
    var calls := reply.toolCalls.value;
    var p := RunCalls(t1, reply, calls, backend, dumps);
    assert p.fault.None?;
    ToolTurnResult(t, line, infer, backend, dumps);
    var r := Turn(t, line, infer, backend, dumps);
    forall i | 1 <= i <= |calls|
      ensures r.events[i].Request?
    {
      assert r.events[i] == p.events[i - 1];
    }
    assert r.transcript[..|r.transcript| - 1] == p.transcript;
  }

  /**
    The entries a turn whose tool calls all went through appends: the user
    message, what the tool-call loop appended, and the summary.
   */
  lemma ToolTurnEntries(t: seq<Message>, line: string, infer: Inference, backend: ToolBackend, dumps: Serialise)
    requires !IsExit(line)
    requires var reply := infer(t + [UserMessage(line)], true);
      && reply.toolCalls.Some?
      && RunCalls(t + [UserMessage(line)], reply, reply.toolCalls.value, backend, dumps).fault.None?
    ensures var t1 := t + [UserMessage(line)];
      var reply := infer(t1, true);
      var p := RunCalls(t1, reply, reply.toolCalls.value, backend, dumps);
      Turn(t, line, infer, backend, dumps).transcript[|t|..] ==
        [UserMessage(line)] + p.transcript[|t1|..] + [AssistantMessage(infer(p.transcript, false).content)]
  {
    var t1 := t + [UserMessage(line)];
    var reply := infer(t1, true);
    var p := RunCalls(t1, reply, reply.toolCalls.value, backend, dumps);
    ToolTurnResult(t, line, infer, backend, dumps);
    RunCallsExtends(t1, reply, reply.toolCalls.value, backend, dumps);
    AppendedEntries(t, UserMessage(line), p.transcript, AssistantMessage(infer(p.transcript, false).content));
  }

  /** The entries past `t` of `grown + [last]`, where `grown` extends `t + [first]`. */
  lemma AppendedEntries<T>(t: seq<T>, first: T, grown: seq<T>, last: T)
    requires |grown| > |t| && grown[..|t| + 1] == t + [first]
    ensures (grown + [last])[|t|..] == [first] + grown[|t| + 1..] + [last]
  {
    assert grown == t + [first] + grown[|t| + 1..];
  }

  /**
    The model's tool-call message is appended once per call, so a reply with
    n calls that all go through occurs n times among the turn's new entries.
   */
  lemma ModelMessageRepeated(t: seq<Message>, line: string, infer: Inference, backend: ToolBackend, dumps: Serialise)
    requires !IsExit(line)
    requires infer(t + [UserMessage(line)], true).toolCalls.Some?
    requires Turn(t, line, infer, backend, dumps).status == Answered
    ensures var reply := infer(t + [UserMessage(line)], true);
      var r := Turn(t, line, infer, backend, dumps);
      multiset(r.transcript[|t|..])[reply] == |reply.toolCalls.value|
  {
    var t1 := t + [UserMessage(line)];
    var reply := infer(t1, true);
    var calls := reply.toolCalls.value;
    var p := RunCalls(t1, reply, calls, backend, dumps);
    assert p.fault.None?;
    ToolTurnEntries(t, line, infer, backend, dumps);
    ReplyOncePerCall(t1, reply, calls, backend, dumps);
    var final := AssistantMessage(infer(p.transcript, false).content);
    assert UserMessage(line) != reply && final != reply;
  }

  /**
    A tool name missing from the dispatch table, reached after the earlier
    calls of the reply went through: the turn ends the session with
    `UnknownTool`, and the transcript is exactly what the earlier calls left,
    so nothing is appended for this call and no summary is asked for.
   */
  lemma UnknownToolTurn(t: seq<Message>, line: string, infer: Inference, backend: ToolBackend, dumps: Serialise, k: nat)
    requires !IsExit(line)
    requires var reply := infer(t + [UserMessage(line)], true);
      reply.toolCalls.Some? && k < |reply.toolCalls.value| && reply.toolCalls.value[k].name !in TOOL_MAP
    requires var reply := infer(t + [UserMessage(line)], true);
      RunCalls(t + [UserMessage(line)], reply, reply.toolCalls.value[..k], backend, dumps).fault.None?
    ensures var t1 := t + [UserMessage(line)];
      var reply := infer(t1, true);
      var calls := reply.toolCalls.value;
      var r := Turn(t, line, infer, backend, dumps);
      && r.status == Crashed(UnknownTool(calls[k].name))
      && r.transcript == RunCalls(t1, reply, calls[..k], backend, dumps).transcript
      && |r.transcript| == |t| + 1 + 2 * k
      && r.events == [Infer(t1, true)] + RunCalls(t1, reply, calls[..k], backend, dumps).events
  {
    var t1 := t + [UserMessage(line)];
    var reply := infer(t1, true);
    var calls := reply.toolCalls.value;
    var before := RunCalls(t1, reply, calls[..k], backend, dumps);
    assert calls[..k + 1][..k] == calls[..k] && calls[..k + 1][k] == calls[k];
    assert RunCalls(t1, reply, calls[..k + 1], backend, dumps) == before.(fault := Some(UnknownTool(calls[k].name)));
    TurnCrash(t, line, infer, backend, dumps, k);
  }

  /**
    The calls made by a turn that stops at an unknown tool: the inference
    with tools and one request per earlier call, none for the unknown one
    and no follow-up inference.
   */
  lemma UnknownToolTurnEvents(t: seq<Message>, line: string, infer: Inference, backend: ToolBackend, dumps: Serialise, k: nat)
    requires !IsExit(line)
    requires var reply := infer(t + [UserMessage(line)], true);
      reply.toolCalls.Some? && k < |reply.toolCalls.value| && reply.toolCalls.value[k].name !in TOOL_MAP
    requires var reply := infer(t + [UserMessage(line)], true);
      RunCalls(t + [UserMessage(line)], reply, reply.toolCalls.value[..k], backend, dumps).fault.None?
    ensures var r := Turn(t, line, infer, backend, dumps);
      && |r.events| == 1 + k
      && r.events[0] == Infer(t + [UserMessage(line)], true)
      && (forall j :: 1 <= j < |r.events| ==> r.events[j].Request?)
  {
    var t1 := t + [UserMessage(line)];
    var reply := infer(t1, true);
    var before := RunCalls(t1, reply, reply.toolCalls.value[..k], backend, dumps);
    UnknownToolTurn(t, line, infer, backend, dumps, k);
    var r := Turn(t, line, infer, backend, dumps);
    forall j | 1 <= j < |r.events|
      ensures r.events[j].Request?
    {
      assert r.events[j] == before.events[j - 1];
    }
  }

  // ---------------------------------------------------------------------------
  // Properties of a session
  // ---------------------------------------------------------------------------

  /** Lines after an `exit` are never read, and the exit itself changes nothing. */
  lemma SessionStopsAtExit(t: seq<Message>, lines: seq<string>, infer: Inference, backend: ToolBackend, dumps: Serialise)
    requires |lines| > 0 && IsExit(lines[0])
    ensures Session(t, lines, infer, backend, dumps) == SessionOutcome(t, [], ExitRequested)
  {
  }

  /**
    The transcript is append-only over a whole session: whatever the lines,
    the replies and the tool results, the transcript it started from is a
    prefix of the one it ends with.
   */
  lemma {:induction false} SessionAppendOnly(t: seq<Message>, lines: seq<string>, infer: Inference,
                                             backend: ToolBackend, dumps: Serialise)
    ensures Session(t, lines, infer, backend, dumps).transcript[..|t|] == t
    decreases |lines|
  {
    if lines != [] {
      var r := Turn(t, lines[0], infer, backend, dumps);
      TurnAppendOnly(t, lines[0], infer, backend, dumps);
      if r.status.Answered? {
        SessionAppendOnly(r.transcript, lines[1..], infer, backend, dumps);
        var s := Session(t, lines, infer, backend, dumps);
        assert s.transcript[..|r.transcript|] == r.transcript;
        assert s.transcript[..|t|] == s.transcript[..|r.transcript|][..|t|];
      }
    }
  }
}
