/** A turn read off its parts: where each message, reported call and event of a turn comes from. */
module TurnLayout {
  import opened Prelude
  import opened AgentTurn

  /** The completion asks for tools: the loop dispatches its calls and goes on. */
  predicate AsksForTools(t: Completion) {
    t.calls != [] && t.finish == Some(ToolCalls)
  }

  function Sum(turns: seq<Completion>, f: Completion -> nat): nat {
    if turns == [] then 0 else Sum(Init(turns), f) + f(Last(turns))
  }

  function CallCount(): Completion -> nat {
    (t: Completion) => |t.calls|
  }

  /** Where round `k` begins in the transcript: after the system and user messages and the earlier
      rounds, of one assistant message and one tool message per call each. */
  function RoundStart(turns: seq<Completion>, k: nat): nat
    requires k <= |turns|
  {
    2 + k + Sum(turns[..k], CallCount())
  }

  /** Where the events of round `k` begin, if the first `n` rounds were dispatched: a dispatched round
      has two events per call, another one. */
  function EventStart(turns: seq<Completion>, n: nat, k: nat): nat
    requires n <= |turns| && k <= |turns|
  {
    Sum(turns[..k], CallCount()) + Sum(turns[..if k < n then k else n], CallCount())
  }

  /** Round `k` of the transcript: what the assistant said, then for each call in call order the text
      that its own task returned. */
  ghost predicate RoundAt(tools: Tools, turns: seq<Completion>, messages: seq<Msg>, k: nat)
    requires k < |turns|
  {
    var at, t := RoundStart(turns, k), turns[k];
    && at + |t.calls| < |messages|
    && messages[at] == Msg(Assistant, t.text)
    && forall i :: 0 <= i < |t.calls| ==>
         && t.calls[i].name in tools.names && tools.result(k, i, t.calls[i]).Ok?
         && messages[at + 1 + i] == Msg(Tool, tools.result(k, i, t.calls[i]).value)
  }

  /** The system and user messages, then `n` rounds. */
  ghost predicate LaidOut(tools: Tools, system: string, user: string, turns: seq<Completion>, messages: seq<Msg>, n: nat) {
    && n <= |turns| && |messages| == RoundStart(turns, n)
    && [Msg(System, system), Msg(User, user)] <= messages
    && forall k :: 0 <= k < n ==> RoundAt(tools, turns, messages, k)
  }

  /** The backend's `n`-th answer, to the given messages, is the completion: a live model gives it, a
      replay has it on record. */
  ghost predicate Gives(backend: Backend, n: nat, messages: seq<Msg>, t: Completion) {
    match backend
    case Live(model) => model(n, messages) == Ok(t)
    case Replay(steps) => n < |steps| && steps[n].inference.Some? && Encodes(steps[n].inference.value, t)
  }

  /** The backend's `n`-th answer is the error. */
  ghost predicate Denies(backend: Backend, n: nat, messages: seq<Msg>, error: AgentError) {
    match backend
    case Live(model) => model(n, messages) == Err(error)
    case Replay(steps) =>
      if n >= |steps| then error == ReplayFailed(MissingStep(n, |steps|))
      else if steps[n].inference.None? then error == ReplayFailed(NoInference(n))
      else error == ReplayFailed(Decode) && forall t :: !Encodes(steps[n].inference.value, t)
  }

  /** Completion `i` answers a request on the transcript up to its own round. */
  ghost predicate RequestAt(backend: Backend, cursor: nat, turns: seq<Completion>, messages: seq<Msg>, i: nat)
    requires i < |turns|
  {
    RoundStart(turns, i) <= |messages| && Gives(backend, cursor + i, messages[..RoundStart(turns, i)], turns[i])
  }

  /** The events of round `k`: each call streamed, then, if the round was dispatched, each invoked. */
  ghost predicate EventsAt(turns: seq<Completion>, events: seq<Event>, n: nat, k: nat)
    requires n <= |turns| && k < |turns|
  {
    var at, calls := EventStart(turns, n, k), turns[k].calls;
    && at + (if k < n then 2 * |calls| else |calls|) <= |events|
    && forall i :: 0 <= i < |calls| ==>
         && events[at + i] == ToolCallStreamed(calls[i].name, k)
         && (k < n ==> events[at + |calls| + i] == ToolInvoked(calls[i].name))
  }

  ghost predicate EventsLaidOut(turns: seq<Completion>, events: seq<Event>, n: nat) {
    && n <= |turns| && |events| == EventStart(turns, n, |turns|)
    && forall k :: 0 <= k < |turns| ==> EventsAt(turns, events, n, k)
  }

  /** The calls of completion `k` in the concatenation of all calls. */
  ghost predicate CallsAt(turns: seq<Completion>, calls: seq<ToolCall>, k: nat)
    requires k < |turns|
  {
    var at := Sum(turns[..k], CallCount());
    at + |turns[k].calls| <= |calls| && calls[at..at + |turns[k].calls|] == turns[k].calls
  }

  /** Everything a turn reports, from the completions it received and the number of rounds it
      dispatched. */
  ghost predicate Reports(tools: Tools, backend: Backend, cursor: nat, maxIterations: nat, system: string, user: string,
                          budget: nat, s: State, n: nat) {
    var turns := s.turns;
    && turns != [] && |turns| <= budget && |turns| <= (if maxIterations == 0 then 1 else maxIterations)
    && LaidOut(tools, system, user, turns, s.messages, n)
    && (forall i :: 0 <= i < |turns| ==> RequestAt(backend, cursor, turns, s.messages, i))
    && (forall k :: 0 <= k < n ==> AsksForTools(turns[k]))
    && (if n == |turns| then |turns| == (if maxIterations == 0 then 1 else maxIterations)
        else n == |turns| - 1 && !AsksForTools(turns[n]))
    && s.usage == Usage(Sum(turns, (t: Completion) => t.usage.input), Sum(turns, (t: Completion) => t.usage.output),
                        Sum(turns, (t: Completion) => t.usage.reasoning), Sum(turns, (t: Completion) => t.usage.cached))
    && s.text == turns[|turns| - 1].text && s.finish == turns[|turns| - 1].finish
    && |s.calls| == Sum(turns, CallCount()) && (forall k :: 0 <= k < |turns| ==> CallsAt(turns, s.calls, k))
    && s.events != [] && EventsLaidOut(turns, s.events[..|s.events| - 1], n)
    && s.events[|s.events| - 1] == AgentTurnEnded(s.usage, s.finish)
    && s.left == budget - |turns| && s.cursor == cursor + |turns|
  }

  // ----- The transcript ------------------------------------------------------------------

  lemma SumSnoc(turns: seq<Completion>, k: nat, f: Completion -> nat)
    requires k < |turns|
    ensures Sum(turns[..k + 1], f) == Sum(turns[..k], f) + f(turns[k])
  {
    assert Init(turns[..k + 1]) == turns[..k];
  }

  lemma RoundAtLater(tools: Tools, turns: seq<Completion>, messages: seq<Msg>, more: seq<Msg>, k: nat)
    requires k < |turns| && RoundAt(tools, turns, messages, k)
    ensures RoundAt(tools, turns, messages + more, k)
  {
  }

  lemma LastRoundAt(tools: Tools, turns: seq<Completion>, messages: seq<Msg>, k: nat)
    requires k < |turns| && |messages| == RoundStart(turns, k) && ToolError(tools, k, turns[k].calls).None?
    ensures RoundAt(tools, turns, messages + ([Msg(Assistant, turns[k].text)] + ToolMessages(tools, k, turns[k].calls)), k)
  {
    ToolErrorMeans(tools, k, turns[k].calls);
  }

  lemma OneMoreRound(tools: Tools, system: string, user: string, turns: seq<Completion>, messages: seq<Msg>, k: nat)
    requires k < |turns| && LaidOut(tools, system, user, turns, messages, k) && ToolError(tools, k, turns[k].calls).None?
    ensures LaidOut(tools, system, user, turns,
                    messages + ([Msg(Assistant, turns[k].text)] + ToolMessages(tools, k, turns[k].calls)), k + 1)
  {
    var more := [Msg(Assistant, turns[k].text)] + ToolMessages(tools, k, turns[k].calls);
    SumSnoc(turns, k, CallCount());
    LastRoundAt(tools, turns, messages, k);
    forall j | 0 <= j < k
      ensures RoundAt(tools, turns, messages + more, j)
    {
      RoundAtLater(tools, turns, messages, more, j);
    }
  }

  lemma {:induction false} TranscriptLaidOut(tools: Tools, system: string, user: string, turns: seq<Completion>, n: nat)
    requires n <= |turns| && forall i :: 0 <= i < n ==> ToolError(tools, i, turns[i].calls).None?
    ensures LaidOut(tools, system, user, turns, Transcript(tools, system, user, turns, n), n)
  {
    if n > 0 {
      var prev := Transcript(tools, system, user, turns, n - 1);
      TranscriptLaidOut(tools, system, user, turns, n - 1);
      OneMoreRound(tools, system, user, turns, prev, n - 1);
      assert Transcript(tools, system, user, turns, n)
          == prev + ([Msg(Assistant, turns[n - 1].text)] + ToolMessages(tools, n - 1, turns[n - 1].calls));
    }
  }

  lemma {:induction false} TranscriptGrows(tools: Tools, system: string, user: string, turns: seq<Completion>, k: nat, n: nat)
    requires k <= n <= |turns|
    ensures Transcript(tools, system, user, turns, k) <= Transcript(tools, system, user, turns, n)
  {
    if k < n {
      TranscriptGrows(tools, system, user, turns, k, n - 1);
    }
  }

  /** The transcript of the first `k` rounds is the beginning of a longer one, up to round `k`. */
  lemma TranscriptUpTo(tools: Tools, system: string, user: string, turns: seq<Completion>, k: nat, n: nat)
    requires k <= n <= |turns| && forall i :: 0 <= i < n ==> ToolError(tools, i, turns[i].calls).None?
    ensures RoundStart(turns, k) <= |Transcript(tools, system, user, turns, n)|
    ensures Transcript(tools, system, user, turns, n)[..RoundStart(turns, k)] == Transcript(tools, system, user, turns, k)
  {
    TranscriptGrows(tools, system, user, turns, k, n);
    TranscriptLaidOut(tools, system, user, turns, k);
  }

  lemma AnswerGives(backend: Backend, n: nat, messages: seq<Msg>, t: Completion)
    requires Answer(backend, n, messages).0 == Ok(t)
    ensures Gives(backend, n, messages, t)
  {
    if backend.Replay? {
      DecodesIff(backend.steps[n].inference.value, t);
    }
  }

  lemma AnswerDenies(backend: Backend, n: nat, messages: seq<Msg>, error: AgentError)
    requires Answer(backend, n, messages).0 == Err(error)
    ensures Denies(backend, n, messages, error)
    ensures Answer(backend, n, messages).1 == n + if backend.Live? then 1 else 0
  {
    if backend.Replay? && n < |backend.steps| && backend.steps[n].inference.Some? {
      DecodesIff(backend.steps[n].inference.value, Completion("", Usage(0, 0, 0, 0), None, []));
    }
  }

  lemma RequestsLaidOut(tools: Tools, backend: Backend, cursor: nat, system: string, user: string, turns: seq<Completion>, n: nat)
    requires |turns| - 1 <= n <= |turns| && Asked(backend, cursor, tools, system, user, turns)
    requires forall i :: 0 <= i < n ==> ToolError(tools, i, turns[i].calls).None?
    ensures forall i :: 0 <= i < |turns| ==>
      RequestAt(backend, cursor, turns, Transcript(tools, system, user, turns, n), i)
  {
    forall i | 0 <= i < |turns|
      ensures RequestAt(backend, cursor, turns, Transcript(tools, system, user, turns, n), i)
    {
      assert AskedAt(backend, cursor, tools, system, user, turns, i);
      TranscriptUpTo(tools, system, user, turns, i, n);
      AnswerGives(backend, cursor + i, Transcript(tools, system, user, turns, i), turns[i]);
    }
  }

  // ----- Usage, calls and events ---------------------------------------------------------------

  lemma {:induction false} UsageSums(turns: seq<Completion>)
    ensures SumUsage(turns)
         == Usage(Sum(turns, (t: Completion) => t.usage.input), Sum(turns, (t: Completion) => t.usage.output),
                  Sum(turns, (t: Completion) => t.usage.reasoning), Sum(turns, (t: Completion) => t.usage.cached))
    decreases |turns|
  {
    if turns != [] {
      UsageSums(Init(turns));
    }
  }

  lemma {:induction false} CallsConcatenated(turns: seq<Completion>)
    ensures |AllCalls(turns)| == Sum(turns, CallCount())
    ensures forall k :: 0 <= k < |turns| ==> CallsAt(turns, AllCalls(turns), k)
    decreases |turns|
  {
    if turns != [] {
      var prev := Init(turns);
      CallsConcatenated(prev);
      forall k | 0 <= k < |turns|
        ensures CallsAt(turns, AllCalls(turns), k)
      {
        if k < |prev| {
          assert turns[..k] == prev[..k] && CallsAt(prev, AllCalls(prev), k);
        } else {
          assert turns[..k] == prev;
        }
      }
    }
  }

  lemma EventsAtLater(turns: seq<Completion>, events: seq<Event>, n: nat, t: Completion, n': nat, more: seq<Event>, k: nat)
    requires n <= |turns| && k < |turns| && EventsAt(turns, events, n, k)
    requires n' == n || (n == |turns| && n' == n + 1)
    ensures EventsAt(turns + [t], events + more, n', k)
  {
    assert (turns + [t])[..k] == turns[..k] && (turns + [t])[k] == turns[k];
    assert k < n ==> k < n';
    if k >= n {
      assert n' == n && (turns + [t])[..n] == turns[..n];
    }
  }

  /** Where the last round's events begin and end. */
  lemma LastEventStart(turns: seq<Completion>, t: Completion, n: nat)
    requires |turns| <= n <= |turns| + 1
    ensures EventStart(turns + [t], n, |turns|) == EventStart(turns, |turns|, |turns|)
    ensures EventStart(turns + [t], n, |turns| + 1)
         == EventStart(turns, |turns|, |turns|) + if n > |turns| then 2 * |t.calls| else |t.calls|
  {
    var turns' := turns + [t];
    assert turns'[..|turns| + 1] == turns' && turns'[..|turns|] == turns && turns[..|turns|] == turns;
    SumSnoc(turns', |turns|, CallCount());
  }

  function EventsOfRound(k: nat, t: Completion, dispatched: bool): seq<Event> {
    Streamed(k, t.calls) + if dispatched then Invocations(t.calls) else []
  }

  lemma LastEventsAt(turns: seq<Completion>, events: seq<Event>, t: Completion, dispatched: bool)
    requires |events| == EventStart(turns, |turns|, |turns|)
    ensures EventsAt(turns + [t], events + EventsOfRound(|turns|, t, dispatched),
                     if dispatched then |turns| + 1 else |turns|, |turns|)
  {
    LastEventStart(turns, t, if dispatched then |turns| + 1 else |turns|);
  }

  lemma EarlierEventsAt(turns: seq<Completion>, events: seq<Event>, t: Completion, n: nat, more: seq<Event>)
    requires EventsLaidOut(turns, events, |turns|) && |turns| <= n <= |turns| + 1
    ensures forall j :: 0 <= j < |turns| ==> EventsAt(turns + [t], events + more, n, j)
  {
    forall j | 0 <= j < |turns|
      ensures EventsAt(turns + [t], events + more, n, j)
    {
      EventsAtLater(turns, events, |turns|, t, n, more, j);
    }
  }

  lemma EventCount(k: nat, t: Completion, dispatched: bool)
    ensures |EventsOfRound(k, t, dispatched)| == if dispatched then 2 * |t.calls| else |t.calls|
  {
  }

  /** The events of one more round, dispatched or not. */
  lemma OneMoreRoundOfEvents(turns: seq<Completion>, events: seq<Event>, t: Completion, dispatched: bool)
    requires EventsLaidOut(turns, events, |turns|)
    ensures EventsLaidOut(turns + [t], events + EventsOfRound(|turns|, t, dispatched),
                          if dispatched then |turns| + 1 else |turns|)
  {
    var more, n := EventsOfRound(|turns|, t, dispatched), if dispatched then |turns| + 1 else |turns|;
    LastEventStart(turns, t, n);
    LastEventsAt(turns, events, t, dispatched);
    EarlierEventsAt(turns, events, t, n, more);
    EventCount(|turns|, t, dispatched);
    assert |turns + [t]| == |turns| + 1;
  }

  lemma {:induction false} EventsAreLaidOut(turns: seq<Completion>, n: nat)
    requires |turns| - 1 <= n <= |turns|
    ensures EventsLaidOut(turns, EventsOf(turns, n), n)
    decreases |turns|
  {
    if turns != [] {
      var prev, t := Init(turns), Last(turns);
      EventsAreLaidOut(prev, |prev|);
      OneMoreRoundOfEvents(prev, EventsOf(prev, |prev|), t, n == |turns|);
      EndsOf(turns);
      Assoc(EventsOf(prev, |prev|), Streamed(|prev|, t.calls), if n == |turns| then Invocations(t.calls) else []);
    }
  }

  // ----- Whole turns ---------------------------------------------------------------------------------

  /** Every completed turn, for any backend, tools and completion order, read off its parts. After the
      system and user messages the transcript has one round per dispatched completion: what the
      assistant said, then, at its own place, the text that each call's own task returned. Each
      completion is the backend's answer to the transcript up to its round. All but the last asked
      for tools, and the last did not, unless the iterations ran out. Usage is the sum in each field,
      the calls are all calls in order, and each call has its streamed event and, if dispatched, its
      invoked event. */
  lemma CompletedTurnReads(tools: Tools, backend: Backend, cursor: nat, maxIterations: nat, system: string, user: string, budget: nat)
    returns (n: nat)
    requires RunTurn(tools, backend, cursor, maxIterations, system, user, budget).Completed?
    ensures Reports(tools, backend, cursor, maxIterations, system, user, budget,
                    RunTurn(tools, backend, cursor, maxIterations, system, user, budget).state, n)
  {
    CompletedTurn(tools, backend, cursor, maxIterations, system, user, budget);
    var s := RunTurn(tools, backend, cursor, maxIterations, system, user, budget).state;
    n := Dispatched(s.turns);
    TranscriptLaidOut(tools, system, user, s.turns, n);
    RequestsLaidOut(tools, backend, cursor, system, user, s.turns, n);
    UsageSums(s.turns);
    CallsConcatenated(s.turns);
    EventsAreLaidOut(s.turns, n);
    assert Init(s.events) == s.events[..|s.events| - 1];
  }

  /** Why the turn failed, after `n` dispatched rounds over the given messages. */
  ghost predicate FailsWith(tools: Tools, backend: Backend, cursor: nat, budget: nat, o: Outcome, messages: seq<Msg>, n: nat)
    requires o.Failed?
  {
    || (n == |o.turns| == budget && o.error == BudgetExceeded && o.cursor == cursor + n)
    || (n == |o.turns| < budget && Denies(backend, cursor + n, messages, o.error)
        && o.cursor == cursor + n + if backend.Live? then 1 else 0)
    || (n + 1 == |o.turns| <= budget && AsksForTools(o.turns[n]) && o.cursor == cursor + |o.turns|
        && exists i :: FailsAt(tools, n, o.turns[n].calls, i, o.error))
  }

  /** Every failed turn: the transcript it had built, the requests it had made on it, and the events it
      had emitted are laid out as in a completed turn; and it failed because the iterations were used
      up, because the backend denied the request on that transcript, or because of the first tool in
      call order that is unknown, or else fails. */
  lemma FailedTurnReads(tools: Tools, backend: Backend, cursor: nat, maxIterations: nat, system: string, user: string, budget: nat)
    returns (n: nat, messages: seq<Msg>)
    requires RunTurn(tools, backend, cursor, maxIterations, system, user, budget).Failed?
    ensures var o := RunTurn(tools, backend, cursor, maxIterations, system, user, budget);
      && n < (if maxIterations == 0 then 1 else maxIterations)
      && LaidOut(tools, system, user, o.turns, messages, n)
      && (forall i :: 0 <= i < |o.turns| ==> RequestAt(backend, cursor, o.turns, messages, i))
      && (forall k :: 0 <= k < n ==> AsksForTools(o.turns[k]))
      && EventsLaidOut(o.turns, o.events, n)
      && FailsWith(tools, backend, cursor, budget, o, messages, n)
  {
    var o := RunTurn(tools, backend, cursor, maxIterations, system, user, budget);
    n := FailedTurn(tools, backend, cursor, maxIterations, system, user, budget);
    messages := Transcript(tools, system, user, o.turns, n);
    TranscriptLaidOut(tools, system, user, o.turns, n);
    RequestsLaidOut(tools, backend, cursor, system, user, o.turns, n);
    EventsAreLaidOut(o.turns, n);
    if n + 1 == |o.turns| {
      ToolErrorMeans(tools, n, o.turns[n].calls);
    } else if n < budget {
      AnswerDenies(backend, cursor + n, messages, o.error);
    }
  }
}
