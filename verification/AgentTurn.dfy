/** One agent turn: the bounded tool-call loop over an arbitrary model, recording its completions
    and replaying them. */
module AgentTurn {
  import opened Prelude

  datatype Role = System | User | Assistant | Tool

  datatype Msg = Msg(role: Role, text: string)

  datatype FinishReason = Stop | Length | ToolCalls | ContentFilter | ErrorFinish

  datatype ToolCall = ToolCall(id: string, name: string, argumentsRaw: string)

  datatype Usage = Usage(input: nat, output: nat, reasoning: nat, cached: nat)

  /** What the model answers to one request. */
  datatype Completion = Completion(text: string, usage: Usage, finish: Option<FinishReason>, calls: seq<ToolCall>)

  datatype ReplayError = MissingStep(step: nat, available: nat) | NoInference(step: nat) | Decode

  datatype AgentError =
    | BudgetExceeded
    | ProviderError(reason: string)
    | ReplayFailed(error: ReplayError)
    | UnknownTool(name: string)
    | ToolFailed(reason: string)

  datatype Event =
    | ToolCallStreamed(name: string, iteration: nat)
    | ToolInvoked(name: string)
    | AgentTurnEnded(usage: Usage, finish: Option<FinishReason>)

  // ----- Records ------------------------------------------------------------

  datatype Json = Null | Bool(b: bool) | Num(n: int) | Str(s: string) | Arr(items: seq<Json>) | Obj(fields: map<string, Json>)

  datatype InferenceRecord = InferenceRecord(rawCompletion: string, finishReason: Option<string>, usage: Usage, toolCalls: seq<Json>)

  /** One recorded step; the inference is absent for steps that made none. */
  datatype StepRecord = StepRecord(inference: Option<InferenceRecord>)

  function FinishName(f: FinishReason): string {
    match f
    case Stop => "stop"
    case Length => "length"
    case ToolCalls => "tool_calls"
    case ContentFilter => "content_filter"
    case ErrorFinish => "error"
  }

  function FinishNamed(s: string): Result<FinishReason, ReplayError> {
    if s == "stop" then Ok(Stop)
    else if s == "length" then Ok(Length)
    else if s == "tool_calls" then Ok(ToolCalls)
    else if s == "content_filter" then Ok(ContentFilter)
    else if s == "error" then Ok(ErrorFinish)
    else Err(Decode)
  }

  function CallToJson(c: ToolCall): Json {
    Obj(map["id" := Str(c.id), "name" := Str(c.name), "arguments_raw" := Str(c.argumentsRaw)])
  }

  predicate HasString(v: Json, field: string) {
    v.Obj? && field in v.fields && v.fields[field].Str?
  }

  function CallFromJson(v: Json): Result<ToolCall, ReplayError> {
    if HasString(v, "id") && HasString(v, "name") && HasString(v, "arguments_raw")
    then Ok(ToolCall(v.fields["id"].s, v.fields["name"].s, v.fields["arguments_raw"].s))
    else Err(Decode)
  }

  function CallsFromJson(vs: seq<Json>): Result<seq<ToolCall>, ReplayError> {
    if vs == [] then Ok([])
    else
      match CallFromJson(vs[0])
      case Err(e) => Err(e)
      case Ok(c) =>
        match CallsFromJson(vs[1..])
        case Err(e) => Err(e)
        case Ok(rest) => Ok([c] + rest)
  }

  function CallsToJson(calls: seq<ToolCall>): seq<Json> {
    seq(|calls|, i requires 0 <= i < |calls| => CallToJson(calls[i]))
  }

  function RecordTurn(t: Completion): InferenceRecord {
    InferenceRecord(t.text,
                    if t.finish.Some? then Some(FinishName(t.finish.value)) else None,
                    t.usage,
                    CallsToJson(t.calls))
  }

  function TurnFromRecord(inf: InferenceRecord): Result<Completion, ReplayError> {
    var finish: Result<Option<FinishReason>, ReplayError> :=
      if inf.finishReason.None? then Ok(None)
      else
        match FinishNamed(inf.finishReason.value)
        case Ok(f) => Ok(Some(f))
        case Err(e) => Err(e);
    match (finish, CallsFromJson(inf.toolCalls))
    case (Err(e), _) => Err(e)
    case (_, Err(e)) => Err(e)
    case (Ok(f), Ok(calls)) => Ok(Completion(inf.rawCompletion, inf.usage, f, calls))
  }

  lemma {:induction false} CallsRoundTrip(calls: seq<ToolCall>)
    ensures CallsFromJson(CallsToJson(calls)) == Ok(calls)
  {
    if calls != [] {
      CallsRoundTrip(calls[1..]);
      assert CallsToJson(calls)[1..] == CallsToJson(calls[1..]);
      assert calls == [calls[0]] + calls[1..];
    }
  }

  /** Recording a completion and reading it back is the identity. */
  lemma RecordRoundTrip(t: Completion)
    ensures TurnFromRecord(RecordTurn(t)) == Ok(t)
  {
    CallsRoundTrip(t.calls);
  }

  const FINISH_NAMES: map<string, FinishReason> :=
    map["stop" := Stop, "length" := Length, "tool_calls" := ToolCalls, "content_filter" := ContentFilter, "error" := ErrorFinish]

  /** The JSON object has at least the three fields of the call. */
  predicate EncodesCall(v: Json, c: ToolCall) {
    && v.Obj? && "id" in v.fields && "name" in v.fields && "arguments_raw" in v.fields
    && v.fields["id"] == Str(c.id) && v.fields["name"] == Str(c.name) && v.fields["arguments_raw"] == Str(c.argumentsRaw)
  }

  /** The record carries the completion: its text, usage, finish reason by name, and its calls. */
  ghost predicate Encodes(inf: InferenceRecord, t: Completion) {
    && inf.rawCompletion == t.text && inf.usage == t.usage
    && (inf.finishReason.Some? <==> t.finish.Some?)
    && (inf.finishReason.Some? ==>
          inf.finishReason.value in FINISH_NAMES && FINISH_NAMES[inf.finishReason.value] == t.finish.value)
    && |inf.toolCalls| == |t.calls| && forall i :: 0 <= i < |t.calls| ==> EncodesCall(inf.toolCalls[i], t.calls[i])
  }

  lemma {:induction false} CallsDecode(vs: seq<Json>, calls: seq<ToolCall>)
    ensures CallsFromJson(vs) == Ok(calls)
       <==> |vs| == |calls| && forall i :: 0 <= i < |calls| ==> EncodesCall(vs[i], calls[i])
    decreases |vs|
  {
    if vs != [] && calls != [] {
      CallsDecode(vs[1..], calls[1..]);
      assert vs == [vs[0]] + vs[1..] && calls == [calls[0]] + calls[1..];
      assert CallFromJson(vs[0]) == Ok(calls[0]) <==> EncodesCall(vs[0], calls[0]);
    }
  }

  /** What decoding accepts, for any record: it yields a completion if and only if the record carries
      that completion; a record that carries none is a decoding error. */
  lemma DecodesIff(inf: InferenceRecord, t: Completion)
    ensures TurnFromRecord(inf) == Ok(t) <==> Encodes(inf, t)
    ensures TurnFromRecord(inf).Err? ==> TurnFromRecord(inf) == Err(Decode) && forall u :: !Encodes(inf, u)
  {
    CallsDecode(inf.toolCalls, t.calls);
    if TurnFromRecord(inf).Err? {
      DecodeErrors(inf.toolCalls);
      forall u
        ensures !Encodes(inf, u)
      {
        CallsDecode(inf.toolCalls, u.calls);
      }
    }
  }

  lemma {:induction false} DecodeErrors(vs: seq<Json>)
    ensures CallsFromJson(vs).Err? ==> CallsFromJson(vs) == Err(Decode)
  {
    if vs != [] {
      DecodeErrors(vs[1..]);
    }
  }

  function RecordAll(turns: seq<Completion>): seq<StepRecord> {
    seq(|turns|, i requires 0 <= i < |turns| => StepRecord(Some(RecordTurn(turns[i]))))
  }

  // ----- The inference client -------------------------------------------------

  /** A live model answers its `n`-th request on a transcript arbitrarily; a replay client serves
      its records in order and ignores the transcript. */
  datatype Backend =
    | Live(model: (nat, seq<Msg>) -> Result<Completion, AgentError>)
    | Replay(steps: seq<StepRecord>)

  function NextRecord(steps: seq<StepRecord>, cursor: nat): Result<Completion, ReplayError> {
    if cursor >= |steps| then Err(MissingStep(cursor, |steps|))
    else if steps[cursor].inference.None? then Err(NoInference(cursor))
    else TurnFromRecord(steps[cursor].inference.value)
  }

  function Answer(backend: Backend, cursor: nat, messages: seq<Msg>): (Result<Completion, AgentError>, nat) {
    match backend
    case Live(model) => (model(cursor, messages), cursor + 1)
    case Replay(steps) =>
      match NextRecord(steps, cursor)
      case Ok(t) => (Ok(t), cursor + 1)
      case Err(e) => (Err(ReplayFailed(e)), cursor)
  }

  class InferenceClient {
    const backend: Backend
    var cursor: nat

    constructor (backend: Backend)
      ensures this.backend == backend && cursor == 0
    {
      this.backend, cursor := backend, 0;
    }

    method Infer(messages: seq<Msg>) returns (r: Result<Completion, AgentError>)
      modifies this
      ensures (r, cursor) == Answer(backend, old(cursor), messages)
    {
      match backend {
        case Live(model) =>
          r := model(cursor, messages);
          cursor := cursor + 1;
        case Replay(steps) =>
          var next := NextRecord(steps, cursor);
          match next {
            case Ok(t) => r := Ok(t); cursor := cursor + 1;
            case Err(e) => r := Err(ReplayFailed(e));
          }
      }
    }

    /** Recorded steps not yet served. */
    method Remaining() returns (n: nat)
      requires backend.Replay?
      ensures n == Unserved(backend.steps, cursor)
    {
      n := if cursor < |backend.steps| then |backend.steps| - cursor else 0;
    }
  }

  function Unserved(steps: seq<StepRecord>, cursor: nat): nat {
    if cursor < |steps| then |steps| - cursor else 0
  }

  /** The cursor of a fresh replay client after the given requests. */
  function CursorAfter(steps: seq<StepRecord>, asked: seq<seq<Msg>>): nat {
    if asked == [] then 0 else Answer(Replay(steps), CursorAfter(steps, Init(asked)), Last(asked)).1
  }

  /** Record `i` cannot be served. */
  predicate Gap(steps: seq<StepRecord>, i: nat) {
    i >= |steps| || steps[i].inference.None? || TurnFromRecord(steps[i].inference.value).Err?
  }

  /** What `remaining` counts: after any requests, whatever their transcripts, it is the number of
      records less the requests answered; the requests answered are exactly those before the first
      gap; and it is zero exactly when every record has been served. */
  lemma {:induction false} RemainingCounts(steps: seq<StepRecord>, asked: seq<seq<Msg>>, messages: seq<Msg>, gap: nat)
    requires Gap(steps, gap) && forall i :: 0 <= i < gap ==> !Gap(steps, i)
    ensures var answered := if |asked| < gap then |asked| else gap;
      && CursorAfter(steps, asked) == answered <= |steps|
      && Unserved(steps, CursorAfter(steps, asked)) == |steps| - answered
    ensures Answer(Replay(steps), CursorAfter(steps, asked), messages).0.Ok? <==> |asked| < gap
    ensures Unserved(steps, CursorAfter(steps, asked)) == 0 <==> gap == |steps| <= |asked|
    decreases |asked|
  {
    assert gap <= |steps| by { assert gap > |steps| ==> Gap(steps, |steps|); }
    if asked != [] {
      RemainingCounts(steps, Init(asked), Last(asked), gap);
    }
    var c := if |asked| < gap then |asked| else gap;
    assert Gap(steps, c) <==> c == gap;
    assert Answer(Replay(steps), c, messages).0.Ok? <==> !Gap(steps, c);
  }

  // ----- Tools ------------------------------------------------------------------

  /** The tools selected for the turn. `result` is what a task for call `index` of iteration
      `iteration` returns, as the serialized JSON text. */
  datatype Tools = Tools(names: set<string>, result: (nat, nat, ToolCall) -> Result<string, string>)

  /** The first call in order that makes the round fail: an unknown name fails before any task is
      awaited, a failing task when it is awaited. */
  function FirstUnknown(tools: Tools, calls: seq<ToolCall>): Option<string> {
    if calls == [] then None
    else if calls[0].name !in tools.names then Some(calls[0].name)
    else FirstUnknown(tools, calls[1..])
  }

  function FirstFailure(tools: Tools, iter: nat, calls: seq<ToolCall>, from: nat): Option<string>
    requires from <= |calls|
    decreases |calls| - from
  {
    if from == |calls| then None
    else
      match tools.result(iter, from, calls[from])
      case Err(e) => Some(e)
      case Ok(_) => FirstFailure(tools, iter, calls, from + 1)
  }

  function ToolError(tools: Tools, iter: nat, calls: seq<ToolCall>): Option<AgentError> {
    if FirstUnknown(tools, calls).Some? then Some(UnknownTool(FirstUnknown(tools, calls).value))
    else if FirstFailure(tools, iter, calls, 0).Some? then Some(ToolFailed(FirstFailure(tools, iter, calls, 0).value))
    else None
  }

  function TextOf(r: Result<string, string>): string {
    if r.Ok? then r.value else ""
  }

  /** Every call of the round names a tool of the turn, and every task succeeds. */
  ghost predicate RoundSucceeds(tools: Tools, iter: nat, calls: seq<ToolCall>) {
    forall i :: 0 <= i < |calls| ==> calls[i].name in tools.names && tools.result(iter, i, calls[i]).Ok?
  }

  /** Call `i` is the first that names no tool; or all calls name one, and task `i` is the first in
      call order that fails. */
  predicate FailsAt(tools: Tools, iter: nat, calls: seq<ToolCall>, i: nat, error: AgentError) {
    && i < |calls|
    && if calls[i].name !in tools.names
       then error == UnknownTool(calls[i].name) && forall j :: 0 <= j < i ==> calls[j].name in tools.names
       else && (forall c <- calls :: c.name in tools.names)
            && tools.result(iter, i, calls[i]).Err? && error == ToolFailed(tools.result(iter, i, calls[i]).error)
            && forall j :: 0 <= j < i ==> tools.result(iter, j, calls[j]).Ok?
  }

  lemma {:induction false} FirstUnknownIs(tools: Tools, calls: seq<ToolCall>) returns (i: nat)
    ensures FirstUnknown(tools, calls).None? ==> forall c <- calls :: c.name in tools.names
    ensures FirstUnknown(tools, calls).Some? ==>
      i < |calls| && calls[i].name !in tools.names && FirstUnknown(tools, calls) == Some(calls[i].name)
      && forall j :: 0 <= j < i ==> calls[j].name in tools.names
  {
    i := 0;
    if calls != [] && calls[0].name in tools.names {
      var k := FirstUnknownIs(tools, calls[1..]);
      assert calls == [calls[0]] + calls[1..];
      i := k + 1;
    }
  }

  lemma {:induction false} FirstFailureIs(tools: Tools, iter: nat, calls: seq<ToolCall>, from: nat) returns (i: nat)
    requires from <= |calls|
    ensures FirstFailure(tools, iter, calls, from).None? ==>
      forall j :: from <= j < |calls| ==> tools.result(iter, j, calls[j]).Ok?
    ensures FirstFailure(tools, iter, calls, from).Some? ==>
      from <= i < |calls| && tools.result(iter, i, calls[i]) == Err(FirstFailure(tools, iter, calls, from).value)
      && forall j :: from <= j < i ==> tools.result(iter, j, calls[j]).Ok?
    decreases |calls| - from
  {
    i := from;
    if from < |calls| && tools.result(iter, from, calls[from]).Ok? {
      i := FirstFailureIs(tools, iter, calls, from + 1);
    }
  }

  /** When a round fails, and with which error. */
  lemma ToolErrorMeans(tools: Tools, iter: nat, calls: seq<ToolCall>)
    ensures ToolError(tools, iter, calls).None? <==> RoundSucceeds(tools, iter, calls)
    ensures ToolError(tools, iter, calls).Some? ==> exists i :: FailsAt(tools, iter, calls, i, ToolError(tools, iter, calls).value)
  {
    var u := FirstUnknownIs(tools, calls);
    var f := FirstFailureIs(tools, iter, calls, 0);
    if FirstUnknown(tools, calls).Some? {
      assert FailsAt(tools, iter, calls, u, ToolError(tools, iter, calls).value);
    } else if FirstFailure(tools, iter, calls, 0).Some? {
      assert FailsAt(tools, iter, calls, f, ToolError(tools, iter, calls).value);
    } else {
      assert forall i :: 0 <= i < |calls| ==> calls[i] in calls;
    }
  }

  /** The tool messages of one round: one per call, in call order. */
  function ToolMessages(tools: Tools, iter: nat, calls: seq<ToolCall>): seq<Msg> {
    seq(|calls|, i requires 0 <= i < |calls| => Msg(Tool, TextOf(tools.result(iter, i, calls[i]))))
  }

  function Invocations(calls: seq<ToolCall>): seq<Event> {
    seq(|calls|, i requires 0 <= i < |calls| => ToolInvoked(calls[i].name))
  }

  function Streamed(iter: nat, calls: seq<ToolCall>): seq<Event> {
    seq(|calls|, i requires 0 <= i < |calls| => ToolCallStreamed(calls[i].name, iter))
  }

  // ----- The loop ----------------------------------------------------------------

  /** The variables of the loop; `turns` are the completions received, in order. */
  datatype State = State(messages: seq<Msg>, text: string, usage: Usage, finish: Option<FinishReason>,
                         calls: seq<ToolCall>, left: nat, events: seq<Event>, cursor: nat, turns: seq<Completion>)

  /** A failed turn leaves the events it emitted and the completions it received. */
  datatype Outcome =
    | Completed(state: State)
    | Failed(error: AgentError, cursor: nat, turns: seq<Completion>, events: seq<Event>)

  datatype Next = Continue(next: State) | Break(next: State) | Fail(outcome: Outcome)

  function FailIn(s: State, error: AgentError, cursor: nat): Next {
    Fail(Failed(error, cursor, s.turns, s.events))
  }

  function AddUsage(a: Usage, b: Usage): Usage {
    Usage(a.input + b.input, a.output + b.output, a.reasoning + b.reasoning, a.cached + b.cached)
  }

  predicate WantsTools(t: Completion) {
    t.calls != [] && t.finish == Some(ToolCalls)
  }

  /** Everything an iteration does with its completion before deciding whether to dispatch. */
  function Receive(s: State, iter: nat, t: Completion, cursor: nat): State {
    s.(text := t.text, usage := AddUsage(s.usage, t.usage), finish := t.finish, calls := s.calls + t.calls,
       left := s.left - if s.left > 0 then 1 else 0,
       events := s.events + Streamed(iter, t.calls), cursor := cursor, turns := s.turns + [t])
  }

  function Dispatch(tools: Tools, s: State, iter: nat, t: Completion): State {
    s.(messages := s.messages + [Msg(Assistant, t.text)] + ToolMessages(tools, iter, t.calls),
       events := s.events + Invocations(t.calls))
  }

  function Iterate(tools: Tools, backend: Backend, s: State, iter: nat): Next {
    if s.left == 0 then FailIn(s, BudgetExceeded, s.cursor)
    else
      var (r, cursor) := Answer(backend, s.cursor, s.messages);
      match r
      case Err(e) => FailIn(s, e, cursor)
      case Ok(t) =>
        var s' := Receive(s, iter, t, cursor);
        if !WantsTools(t) then Break(s')
        else if ToolError(tools, iter, t.calls).Some? then FailIn(s', ToolError(tools, iter, t.calls).value, cursor)
        else Continue(Dispatch(tools, s', iter, t))
  }

  function Loop(tools: Tools, backend: Backend, s: State, iter: nat, max: nat): Outcome
    requires iter <= max
    decreases max - iter
  {
    if iter == max then Completed(s)
    else
      match Iterate(tools, backend, s, iter)
      case Fail(o) => o
      case Break(s') => Completed(s')
      case Continue(s') => Loop(tools, backend, s', iter + 1, max)
  }

  function Bound(maxIterations: nat): nat {
    if maxIterations > 1 then maxIterations else 1
  }

  function StartState(system: string, user: string, budget: nat, cursor: nat): State {
    State([Msg(System, system), Msg(User, user)], "", Usage(0, 0, 0, 0), None, [], budget, [], cursor, [])
  }

  function Close(o: Outcome): Outcome {
    match o
    case Failed(_, _, _, _) => o
    case Completed(s) => Completed(s.(events := s.events + [AgentTurnEnded(s.usage, s.finish)]))
  }

  /** A whole turn: `system` is the assembled system prompt, `budget` the iterations left. */
  function RunTurn(tools: Tools, backend: Backend, cursor: nat, maxIterations: nat, system: string, user: string, budget: nat): Outcome {
    Close(Loop(tools, backend, StartState(system, user, budget, cursor), 0, Bound(maxIterations)))
  }

  // ----- The agent object -----------------------------------------------------------

  /** Every index below `n` occurs in the order, so every task finishes. */
  predicate FinishesAll(order: seq<nat>, n: nat) {
    && (forall k <- order :: k < n)
    && (forall i :: 0 <= i < n ==> i in order)
  }

  class Agent {
    const tools: Tools
    const maxIterations: nat
    var events: seq<Event>

    constructor (tools: Tools, maxIterations: nat)
      ensures this.tools == tools && this.maxIterations == maxIterations && events == []
    {
      this.tools, this.maxIterations, events := tools, maxIterations, [];
    }

    /** Runs the calls of one round concurrently. `order` is the order in which the tasks finish;
        the results are awaited in call order, whatever it is. */
    method DispatchTools(calls: seq<ToolCall>, iter: nat, order: seq<nat>) returns (r: Result<seq<Msg>, AgentError>)
      requires FinishesAll(order, |calls|)
      modifies this
      ensures r == if ToolError(tools, iter, calls).Some? then Err(ToolError(tools, iter, calls).value)
                   else Ok(ToolMessages(tools, iter, calls))
      ensures r.Ok? ==> |r.value| == |calls| && forall i :: 0 <= i < |calls| ==>
        calls[i].name in tools.names && tools.result(iter, i, calls[i]).Ok?
        && r.value[i] == Msg(Tool, tools.result(iter, i, calls[i]).value)
      ensures r.Err? ==> exists i :: FailsAt(tools, iter, calls, i, r.error)
      ensures events == old(events) + if r.Ok? then Invocations(calls) else []
    {
      ToolErrorMeans(tools, iter, calls);
      for i := 0 to |calls|
        invariant FirstUnknown(tools, calls) == FirstUnknown(tools, calls[i..])
      {
        if calls[i].name !in tools.names {
          return Err(UnknownTool(calls[i].name));
        }
        assert calls[i..][1..] == calls[i + 1..];
      }
      assert calls[|calls|..] == [];
      var slots := Finish(calls, iter, order);
      var texts: seq<Msg> := [];
      for i := 0 to |calls|
        invariant FirstFailure(tools, iter, calls, 0) == FirstFailure(tools, iter, calls, i)
        invariant texts == ToolMessages(tools, iter, calls)[..i]
      {
        match slots[i].value {
          case Err(e) => return Err(ToolFailed(e));
          case Ok(text) => texts := texts + [Msg(Tool, text)];
        }
      }
      assert ToolMessages(tools, iter, calls)[..|calls|] == ToolMessages(tools, iter, calls);
      events := events + Invocations(calls);
      r := Ok(texts);
    }

    /** The tasks finish in some order and leave their results in their own slots. */
    method Finish(calls: seq<ToolCall>, iter: nat, order: seq<nat>) returns (slots: seq<Option<Result<string, string>>>)
      requires FinishesAll(order, |calls|)
      ensures |slots| == |calls|
      ensures forall i :: 0 <= i < |calls| ==> slots[i] == Some(tools.result(iter, i, calls[i]))
    {
      slots := seq(|calls|, _ => None);
      for k := 0 to |order|
        invariant |slots| == |calls|
        invariant forall i :: 0 <= i < |calls| && i in order[..k] ==> slots[i] == Some(tools.result(iter, i, calls[i]))
      {
        var i := order[k];
        assert i in order;
        slots := slots[i := Some(tools.result(iter, i, calls[i]))];
        assert order[..k + 1] == order[..k] + [i];
      }
      assert order[..|order|] == order;
    }

    method Turn(client: InferenceClient, system: string, user: string, budget: nat, order: (nat, nat) -> seq<nat>)
      returns (o: Outcome)
      requires forall iter, n :: FinishesAll(order(iter, n), n)
      modifies this, client
      ensures o == RunTurn(tools, client.backend, old(client.cursor), maxIterations, system, user, budget)
      ensures client.cursor == if o.Completed? then o.state.cursor else o.cursor
      ensures events == old(events) + if o.Completed? then o.state.events else o.events
    {
      var messages := [Msg(System, system), Msg(User, user)];
      var text, usage, finish, all := "", Usage(0, 0, 0, 0), None, [];
      var left := budget;
      var turns: seq<Completion> := [];
      var emitted: seq<Event> := [];
      ghost var goal := Loop(tools, client.backend, StartState(system, user, budget, client.cursor), 0, Bound(maxIterations));
      var iter: nat := 0;
      ghost var s := StartState(system, user, budget, client.cursor);
      while iter < Bound(maxIterations)
        invariant iter <= Bound(maxIterations)
        invariant events == old(events) + emitted
        invariant s == State(messages, text, usage, finish, all, left, emitted, client.cursor, turns)
        invariant goal == Loop(tools, client.backend, s, iter, Bound(maxIterations))
      {
        if left == 0 {
          return Failed(BudgetExceeded, client.cursor, turns, emitted);
        }
        left := left - 1;
        var r := client.Infer(messages);
        if r.Err? {
          return Failed(r.error, client.cursor, turns, emitted);
        }
        var t := r.value;
        text, usage, finish := t.text, AddUsage(usage, t.usage), t.finish;
        Assoc(old(events), emitted, Streamed(iter, t.calls));
        events := events + Streamed(iter, t.calls);
        emitted := emitted + Streamed(iter, t.calls);
        all := all + t.calls;
        turns := turns + [t];
        s := Receive(s, iter, t, client.cursor);
        if t.calls == [] || t.finish != Some(ToolCalls) {
          break;
        }
        messages := messages + [Msg(Assistant, t.text)];
        var replies := DispatchTools(t.calls, iter, order(iter, |t.calls|));
        if replies.Err? {
          return Failed(replies.error, client.cursor, turns, emitted);
        }
        Assoc(old(events), emitted, Invocations(t.calls));
        emitted := emitted + Invocations(t.calls);
        messages := messages + replies.value;
        s := Dispatch(tools, s, iter, t);
        iter := iter + 1;
      }
      Assoc(old(events), emitted, [AgentTurnEnded(usage, finish)]);
      events := events + [AgentTurnEnded(usage, finish)];
      emitted := emitted + [AgentTurnEnded(usage, finish)];
      o := Completed(State(messages, text, usage, finish, all, left, emitted, client.cursor, turns));
    }
  }

  // ----- What a completed turn is -------------------------------------------------

  /** The messages of the first `k` rounds: the assistant's text, then one tool message per call. */
  function Rounds(tools: Tools, turns: seq<Completion>, k: nat): seq<Msg>
    requires k <= |turns|
  {
    if k == 0 then []
    else Rounds(tools, turns, k - 1) + [Msg(Assistant, turns[k - 1].text)] + ToolMessages(tools, k - 1, turns[k - 1].calls)
  }

  function Transcript(tools: Tools, system: string, user: string, turns: seq<Completion>, k: nat): seq<Msg>
    requires k <= |turns|
  {
    [Msg(System, system), Msg(User, user)] + Rounds(tools, turns, k)
  }

  function SumUsage(turns: seq<Completion>): Usage {
    if turns == [] then Usage(0, 0, 0, 0) else AddUsage(SumUsage(Init(turns)), Last(turns).usage)
  }

  function AllCalls(turns: seq<Completion>): seq<ToolCall> {
    if turns == [] then [] else AllCalls(Init(turns)) + Last(turns).calls
  }

  /** The events of a turn of which the first `k` rounds were dispatched. */
  function EventsOf(turns: seq<Completion>, k: nat): seq<Event>
    requires k <= |turns|
  {
    if turns == [] then []
    else EventsOf(Init(turns), if k < |turns| then k else k - 1)
         + Streamed(|turns| - 1, Last(turns).calls)
         + (if k == |turns| then Invocations(Last(turns).calls) else [])
  }

  /** The `i`-th completion is what the model answered to the transcript of the first `i` rounds. */
  ghost predicate AskedAt(backend: Backend, cursor: nat, tools: Tools, system: string, user: string, turns: seq<Completion>, i: nat) {
    i < |turns| ==>
      Answer(backend, cursor + i, Transcript(tools, system, user, turns, i)) == (Ok(turns[i]), cursor + i + 1)
  }

  ghost predicate Asked(backend: Backend, cursor: nat, tools: Tools, system: string, user: string, turns: seq<Completion>) {
    forall i: nat {:trigger AskedAt(backend, cursor, tools, system, user, turns, i)} ::
      AskedAt(backend, cursor, tools, system, user, turns, i)
  }

  /** The state of the loop is determined by the completions received: `k` of them dispatched. */
  ghost predicate Explains(tools: Tools, backend: Backend, cursor: nat, system: string, user: string, budget: nat, s: State, k: nat) {
    && k <= |s.turns| <= budget
    && s.messages == Transcript(tools, system, user, s.turns, k)
    && s.usage == SumUsage(s.turns)
    && s.calls == AllCalls(s.turns)
    && s.events == EventsOf(s.turns, k)
    && s.left == budget - |s.turns|
    && s.cursor == cursor + |s.turns|
    && (s.turns != [] ==> s.text == Last(s.turns).text && s.finish == Last(s.turns).finish)
    && Asked(backend, cursor, tools, system, user, s.turns)
    && (forall i :: 0 <= i < k ==> WantsTools(s.turns[i]) && ToolError(tools, i, s.turns[i].calls).None?)
  }

  lemma {:induction false} RoundsPrefix(tools: Tools, turns: seq<Completion>, t: Completion, k: nat)
    requires k <= |turns|
    ensures Rounds(tools, turns + [t], k) == Rounds(tools, turns, k)
  {
    if k > 0 {
      RoundsPrefix(tools, turns, t, k - 1);
    }
  }

  lemma AskedSnoc(backend: Backend, cursor: nat, tools: Tools, system: string, user: string, turns: seq<Completion>, t: Completion)
    requires Asked(backend, cursor, tools, system, user, turns)
    requires Answer(backend, cursor + |turns|, Transcript(tools, system, user, turns, |turns|)) == (Ok(t), cursor + |turns| + 1)
    ensures Asked(backend, cursor, tools, system, user, turns + [t])
  {
    forall i: nat
      ensures AskedAt(backend, cursor, tools, system, user, turns + [t], i)
    {
      if i <= |turns| {
        assert AskedAt(backend, cursor, tools, system, user, turns, i);
        RoundsPrefix(tools, turns, t, i);
        assert i < |turns| ==> (turns + [t])[i] == turns[i];
      }
    }
  }

  lemma TurnSnoc(tools: Tools, turns: seq<Completion>, t: Completion)
    ensures SumUsage(turns + [t]) == AddUsage(SumUsage(turns), t.usage)
    ensures AllCalls(turns + [t]) == AllCalls(turns) + t.calls
    ensures EventsOf(turns + [t], |turns|) == EventsOf(turns, |turns|) + Streamed(|turns|, t.calls)
    ensures EventsOf(turns + [t], |turns| + 1) == EventsOf(turns, |turns|) + Streamed(|turns|, t.calls) + Invocations(t.calls)
  {
    assert Init(turns + [t]) == turns;
  }

  lemma TranscriptSnoc(tools: Tools, system: string, user: string, turns: seq<Completion>, t: Completion)
    ensures Transcript(tools, system, user, turns + [t], |turns|) == Transcript(tools, system, user, turns, |turns|)
    ensures Transcript(tools, system, user, turns + [t], |turns| + 1)
         == Transcript(tools, system, user, turns, |turns|) + [Msg(Assistant, t.text)] + ToolMessages(tools, |turns|, t.calls)
  {
    RoundsPrefix(tools, turns, t, |turns|);
  }

  lemma ReceiveExplains(tools: Tools, backend: Backend, cursor: nat, system: string, user: string, budget: nat, s: State, t: Completion)
    requires Explains(tools, backend, cursor, system, user, budget, s, |s.turns|) && s.left > 0
    requires Answer(backend, s.cursor, s.messages) == (Ok(t), s.cursor + 1)
    ensures Explains(tools, backend, cursor, system, user, budget, Receive(s, |s.turns|, t, s.cursor + 1), |s.turns|)
  {
    AskedSnoc(backend, cursor, tools, system, user, s.turns, t);
    TurnSnoc(tools, s.turns, t);
    TranscriptSnoc(tools, system, user, s.turns, t);
  }

  lemma DispatchExplains(tools: Tools, backend: Backend, cursor: nat, system: string, user: string, budget: nat, s: State, t: Completion)
    requires Explains(tools, backend, cursor, system, user, budget, s, |s.turns|) && s.left > 0
    requires Answer(backend, s.cursor, s.messages) == (Ok(t), s.cursor + 1)
    requires WantsTools(t) && ToolError(tools, |s.turns|, t.calls).None?
    ensures Explains(tools, backend, cursor, system, user, budget,
                     Dispatch(tools, Receive(s, |s.turns|, t, s.cursor + 1), |s.turns|, t), |s.turns| + 1)
  {
    ReceiveExplains(tools, backend, cursor, system, user, budget, s, t);
    TurnSnoc(tools, s.turns, t);
    TranscriptSnoc(tools, system, user, s.turns, t);
  }

  lemma AnswerAdvances(backend: Backend, cursor: nat, messages: seq<Msg>)
    ensures Answer(backend, cursor, messages).0.Ok? ==> Answer(backend, cursor, messages).1 == cursor + 1
  {
  }

  /** How many rounds of a completed turn were dispatched: all but the last, unless the loop ran
      out of iterations while the model still asked for tools. */
  function Dispatched(turns: seq<Completion>): nat
    requires turns != []
  {
    if WantsTools(Last(turns)) then |turns| else |turns| - 1
  }

  ghost predicate WellFormed(tools: Tools, backend: Backend, cursor: nat, system: string, user: string, budget: nat, s: State, max: nat) {
    && 0 < |s.turns| <= max
    && Explains(tools, backend, cursor, system, user, budget, s, Dispatched(s.turns))
    && (WantsTools(Last(s.turns)) ==> |s.turns| == max)
  }

  /** Running out of iterations ends a turn all of whose rounds were dispatched. */
  lemma ExhaustedWellFormed(tools: Tools, backend: Backend, cursor: nat, system: string, user: string, budget: nat, s: State, max: nat)
    requires 0 < |s.turns| == max && Explains(tools, backend, cursor, system, user, budget, s, |s.turns|)
    ensures WellFormed(tools, backend, cursor, system, user, budget, s, max)
  {
    assert WantsTools(s.turns[|s.turns| - 1]);
  }

  lemma BreakWellFormed(tools: Tools, backend: Backend, cursor: nat, system: string, user: string, budget: nat, s: State, max: nat)
    requires |s.turns| < max && Explains(tools, backend, cursor, system, user, budget, s, |s.turns|)
    requires Iterate(tools, backend, s, |s.turns|).Break?
    ensures WellFormed(tools, backend, cursor, system, user, budget, Iterate(tools, backend, s, |s.turns|).next, max)
  {
    var t := Answer(backend, s.cursor, s.messages).0.value;
    AnswerAdvances(backend, s.cursor, s.messages);
    ReceiveExplains(tools, backend, cursor, system, user, budget, s, t);
    var d := Receive(s, |s.turns|, t, s.cursor + 1);
    assert Last(d.turns) == t;
  }

  lemma ContinueExplains(tools: Tools, backend: Backend, cursor: nat, system: string, user: string, budget: nat, s: State)
    requires Explains(tools, backend, cursor, system, user, budget, s, |s.turns|)
    requires Iterate(tools, backend, s, |s.turns|).Continue?
    ensures var d := Iterate(tools, backend, s, |s.turns|).next;
      |d.turns| == |s.turns| + 1 && Explains(tools, backend, cursor, system, user, budget, d, |d.turns|)
  {
    AnswerAdvances(backend, s.cursor, s.messages);
    DispatchExplains(tools, backend, cursor, system, user, budget, s, Answer(backend, s.cursor, s.messages).0.value);
  }

  lemma {:induction false} LoopExplains(tools: Tools, backend: Backend, cursor: nat, system: string, user: string, budget: nat,
                                        s: State, max: nat)
    requires |s.turns| <= max && max > 0
    requires Explains(tools, backend, cursor, system, user, budget, s, |s.turns|)
    ensures var o := Loop(tools, backend, s, |s.turns|, max);
      o.Completed? ==> WellFormed(tools, backend, cursor, system, user, budget, o.state, max)
    decreases max - |s.turns|
  {
    if |s.turns| == max {
      ExhaustedWellFormed(tools, backend, cursor, system, user, budget, s, max);
    } else if Iterate(tools, backend, s, |s.turns|).Break? {
      BreakWellFormed(tools, backend, cursor, system, user, budget, s, max);
    } else if Iterate(tools, backend, s, |s.turns|).Continue? {
      ContinueExplains(tools, backend, cursor, system, user, budget, s);
      LoopExplains(tools, backend, cursor, system, user, budget, Iterate(tools, backend, s, |s.turns|).next, max);
    }
  }

  /** Every completed turn, for any model, any tools and any order in which tasks finish: the
      transcript is the system and user messages followed by whole rounds in call order; usage is
      the sum and the tool calls the concatenation over the completions received; there were
      between one and `max(1, maxIterations)` inferences, as many as iterations consumed, each
      asked on the transcript so far; and every reported call has its streamed event. */
  lemma CompletedTurn(tools: Tools, backend: Backend, cursor: nat, maxIterations: nat, system: string, user: string, budget: nat)
    requires RunTurn(tools, backend, cursor, maxIterations, system, user, budget).Completed?
    ensures var s := RunTurn(tools, backend, cursor, maxIterations, system, user, budget).state;
      && s.events != []
      && WellFormed(tools, backend, cursor, system, user, budget, s.(events := Init(s.events)), Bound(maxIterations))
      && Last(s.events) == AgentTurnEnded(s.usage, s.finish)
  {
    var start := StartState(system, user, budget, cursor);
    LoopExplains(tools, backend, cursor, system, user, budget, start, Bound(maxIterations));
    var o := Loop(tools, backend, start, 0, Bound(maxIterations));
    var s := RunTurn(tools, backend, cursor, maxIterations, system, user, budget).state;
    assert Init(s.events) == o.state.events;
    assert s.(events := Init(s.events)) == o.state;
  }

  /** Why a turn failed, after `k` dispatched rounds: the iterations were used up, or the next
      request was answered with the error, or a tool of the last completion failed. */
  ghost predicate FailedAfter(tools: Tools, backend: Backend, cursor: nat, system: string, user: string, budget: nat, o: Outcome, k: nat) {
    && o.Failed? && k <= |o.turns| <= budget && o.cursor >= cursor + |o.turns|
    && o.events == EventsOf(o.turns, k)
    && Asked(backend, cursor, tools, system, user, o.turns)
    && (forall i :: 0 <= i < k ==> WantsTools(o.turns[i]) && ToolError(tools, i, o.turns[i].calls).None?)
    && (|| (o.error == BudgetExceeded && k == |o.turns| == budget && o.cursor == cursor + k)
        || (k == |o.turns| < budget
            && Answer(backend, cursor + k, Transcript(tools, system, user, o.turns, k)) == (Err(o.error), o.cursor))
        || (k + 1 == |o.turns| && o.cursor == cursor + |o.turns| && WantsTools(o.turns[k]) && ToolError(tools, k, o.turns[k].calls) == Some(o.error)))
  }

  lemma FailExplains(tools: Tools, backend: Backend, cursor: nat, system: string, user: string, budget: nat, s: State)
    returns (k: nat)
    requires Explains(tools, backend, cursor, system, user, budget, s, |s.turns|)
    requires Iterate(tools, backend, s, |s.turns|).Fail?
    ensures k == |s.turns|
    ensures FailedAfter(tools, backend, cursor, system, user, budget, Iterate(tools, backend, s, |s.turns|).outcome, k)
  {
    k := |s.turns|;
    if s.left > 0 && Answer(backend, s.cursor, s.messages).0.Ok? {
      var t := Answer(backend, s.cursor, s.messages).0.value;
      AnswerAdvances(backend, s.cursor, s.messages);
      ReceiveExplains(tools, backend, cursor, system, user, budget, s, t);
      assert (s.turns + [t])[k] == t;
    }
  }

  lemma {:induction false} LoopFails(tools: Tools, backend: Backend, cursor: nat, system: string, user: string, budget: nat,
                                     s: State, max: nat) returns (k: nat)
    requires |s.turns| <= max && Explains(tools, backend, cursor, system, user, budget, s, |s.turns|)
    requires Loop(tools, backend, s, |s.turns|, max).Failed?
    ensures k < max && FailedAfter(tools, backend, cursor, system, user, budget, Loop(tools, backend, s, |s.turns|, max), k)
    decreases max - |s.turns|
  {
    if Iterate(tools, backend, s, |s.turns|).Continue? {
      ContinueExplains(tools, backend, cursor, system, user, budget, s);
      k := LoopFails(tools, backend, cursor, system, user, budget, Iterate(tools, backend, s, |s.turns|).next, max);
    } else {
      k := FailExplains(tools, backend, cursor, system, user, budget, s);
    }
  }

  /** Every failed turn: each completion it received was asked on the transcript so far, the events
      it emitted are those of the rounds it dispatched and of the completion it was working on, and
      the error is the one that stopped it. */
  lemma FailedTurn(tools: Tools, backend: Backend, cursor: nat, maxIterations: nat, system: string, user: string, budget: nat)
    returns (k: nat)
    requires RunTurn(tools, backend, cursor, maxIterations, system, user, budget).Failed?
    ensures k < Bound(maxIterations)
    ensures FailedAfter(tools, backend, cursor, system, user, budget,
                        RunTurn(tools, backend, cursor, maxIterations, system, user, budget), k)
  {
    k := LoopFails(tools, backend, cursor, system, user, budget, StartState(system, user, budget, cursor), Bound(maxIterations));
  }

  // ----- Replay -----------------------------------------------------------------------

  /** The records agree with the completions for the first `n` steps. */
  ghost predicate Recorded(steps: seq<StepRecord>, turns: seq<Completion>, n: nat) {
    n <= |steps| && n <= |turns| && forall i :: 0 <= i < n ==> steps[i] == StepRecord(Some(RecordTurn(turns[i])))
  }

  lemma {:induction false} LoopOnlyAppends(tools: Tools, backend: Backend, s: State, iter: nat, max: nat)
    requires iter <= max
    ensures var o := Loop(tools, backend, s, iter, max); o.Completed? ==> s.turns <= o.state.turns
    decreases max - iter
  {
    if iter < max {
      match Iterate(tools, backend, s, iter)
      case Continue(s') => LoopOnlyAppends(tools, backend, s', iter + 1, max);
      case _ =>
    }
  }

  /** With the record of the live completion under the cursor, the replay takes the live step. */
  lemma ReplayStep(tools: Tools, backend: Backend, steps: seq<StepRecord>, s: State, iter: nat)
    requires Answer(backend, s.cursor, s.messages).0.Ok?
    requires iter < |steps| && steps[iter] == StepRecord(Some(RecordTurn(Answer(backend, s.cursor, s.messages).0.value)))
    ensures var live, replay := Iterate(tools, backend, s, iter), Iterate(tools, Replay(steps), s.(cursor := iter), iter);
      && (live.Continue? ==> replay == Continue(live.next.(cursor := iter + 1)))
      && (live.Break? ==> replay == Break(live.next.(cursor := iter + 1)))
  {
    RecordRoundTrip(Answer(backend, s.cursor, s.messages).0.value);
  }

  /** The replay stopped at record `n`, which is missing or empty, after the given completions. */
  predicate StoppedAt(o: Outcome, steps: seq<StepRecord>, n: nat, turns: seq<Completion>) {
    && o.Failed? && o.cursor == n && o.turns == turns
    && o.error == ReplayFailed(if n == |steps| then MissingStep(n, n) else NoInference(n))
  }

  /** Where a record is missing or empty, the replay stops with that error. */
  lemma ReplayStops(tools: Tools, steps: seq<StepRecord>, s: State, n: nat)
    requires s.left > 0 && n <= |steps| && (n == |steps| || steps[n].inference.None?)
    ensures var next := Iterate(tools, Replay(steps), s.(cursor := n), n);
      next.Fail? && StoppedAt(next.outcome, steps, n, s.turns)
  {
  }

  lemma IterateReceives(tools: Tools, backend: Backend, s: State, iter: nat)
    requires !Iterate(tools, backend, s, iter).Fail?
    ensures s.left > 0 && Answer(backend, s.cursor, s.messages).0.Ok?
    ensures Iterate(tools, backend, s, iter).next.turns == s.turns + [Answer(backend, s.cursor, s.messages).0.value]
  {
  }

  /** The replay of a run that ended in `final` over records that agree for `n` steps. */
  predicate Follows(o: Outcome, steps: seq<StepRecord>, final: State, n: nat)
    requires n <= |final.turns|
  {
    if n == |final.turns| then o == Completed(final.(cursor := n)) else StoppedAt(o, steps, n, final.turns[..n])
  }

  lemma FollowsGap(tools: Tools, steps: seq<StepRecord>, s: State, max: nat, final: State, n: nat)
    requires s.left > 0 && s.turns <= final.turns && |s.turns| == n < |final.turns| && n < max
    requires n <= |steps| && (n == |steps| || steps[n].inference.None?)
    ensures Follows(Loop(tools, Replay(steps), s.(cursor := n), n, max), steps, final, n)
  {
    ReplayStops(tools, steps, s, n);
    assert s.turns == final.turns[..n];
  }

  /** The completion of the next live step is the next one of the run. */
  lemma NextOfFinal(tools: Tools, backend: Backend, s: State, max: nat, final: State)
    requires |s.turns| < max && Loop(tools, backend, s, |s.turns|, max) == Completed(final)
    ensures s.left > 0 && s.turns <= final.turns && |s.turns| < |final.turns|
    ensures Answer(backend, s.cursor, s.messages).0 == Ok(final.turns[|s.turns|])
  {
    var iter := |s.turns|;
    var next := Iterate(tools, backend, s, iter);
    IterateReceives(tools, backend, s, iter);
    if next.Continue? {
      LoopOnlyAppends(tools, backend, next.next, iter + 1, max);
    }
    assert next.next.turns <= final.turns;
    assert final.turns[iter] == next.next.turns[iter];
  }

  /** Replaying from the middle of a live run: while the records agree, the replay takes the live
      run's steps; at the first gap it stops. */
  lemma {:induction false} ReplayFollows(tools: Tools, backend: Backend, steps: seq<StepRecord>, s: State, max: nat, final: State, n: nat)
    requires |s.turns| <= max
    requires Loop(tools, backend, s, |s.turns|, max) == Completed(final)
    requires Recorded(steps, final.turns, n) && |s.turns| <= n
    requires n < |final.turns| ==> n == |steps| || steps[n].inference.None?
    ensures Follows(Loop(tools, Replay(steps), s.(cursor := |s.turns|), |s.turns|, max), steps, final, n)
    decreases max - |s.turns|
  {
    var iter := |s.turns|;
    if iter < max {
      NextOfFinal(tools, backend, s, max, final);
      if iter == n {
        FollowsGap(tools, steps, s, max, final, n);
      } else {
        ReplayStep(tools, backend, steps, s, iter);
        if Iterate(tools, backend, s, iter).Continue? {
          ReplayFollows(tools, backend, steps, Iterate(tools, backend, s, iter).next, max, final, n);
        }
      }
    }
  }

  /** Record then replay is the identity on whole turns: for any model and any tools, running a
      completed turn again over the records of its completions gives the same transcript, text,
      usage, finish reason, tool calls and events, and leaves no record unserved. */
  lemma RecordThenReplay(tools: Tools, model: (nat, seq<Msg>) -> Result<Completion, AgentError>, cursor: nat, maxIterations: nat,
                         system: string, user: string, budget: nat)
    requires RunTurn(tools, Live(model), cursor, maxIterations, system, user, budget).Completed?
    ensures var live := RunTurn(tools, Live(model), cursor, maxIterations, system, user, budget).state;
      var steps := RecordAll(live.turns);
      RunTurn(tools, Replay(steps), 0, maxIterations, system, user, budget) == Completed(live.(cursor := |steps|))
  {
    var start := StartState(system, user, budget, cursor);
    var final := Loop(tools, Live(model), start, 0, Bound(maxIterations)).state;
    ReplayFollows(tools, Live(model), RecordAll(final.turns), start, Bound(maxIterations), final, |final.turns|);
  }

  /** Replay fails loudly: with only the first `n` of the records, or with record `n` holding no
      inference, it ends in the error naming that step, never in a different turn. Up to there it
      emitted the events of the first `n` rounds. */
  lemma ShortReplayFails(tools: Tools, model: (nat, seq<Msg>) -> Result<Completion, AgentError>, cursor: nat, maxIterations: nat,
                         system: string, user: string, budget: nat, steps: seq<StepRecord>, n: nat)
    requires RunTurn(tools, Live(model), cursor, maxIterations, system, user, budget).Completed?
    requires var turns := RunTurn(tools, Live(model), cursor, maxIterations, system, user, budget).state.turns;
      n < |turns| && Recorded(steps, turns, n) && (n == |steps| || steps[n].inference.None?)
    ensures var turns := RunTurn(tools, Live(model), cursor, maxIterations, system, user, budget).state.turns[..n];
      var o := RunTurn(tools, Replay(steps), 0, maxIterations, system, user, budget);
      StoppedAt(o, steps, n, turns) && o.events == EventsOf(turns, n)
  {
    var start := StartState(system, user, budget, cursor);
    var final := Loop(tools, Live(model), start, 0, Bound(maxIterations)).state;
    ReplayFollows(tools, Live(model), steps, start, Bound(maxIterations), final, n);
    var k := FailedTurn(tools, Replay(steps), 0, maxIterations, system, user, budget);
  }
}
