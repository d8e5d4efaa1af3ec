/** The headless coding-CLI run: normalized events accumulated into one result. Timestamps are not
    modelled; a record only tells whether it was finished. */
module CliRun {
  import opened Prelude

  datatype FinishReason = Completed | BudgetExhausted | Cancelled | ProcessError | StreamError

  datatype Event =
    | TextDelta(text: string)
    | ToolStarted(id: string, name: string, input: string)
    | ToolFinished(id: string, output: Option<string>, error: Option<string>)
    | Usage(inputTokens: nat, outputTokens: nat, cost: Option<real>)
    | RunFinished(reason: FinishReason, resultText: Option<string>)
    | OtherEvent

  datatype Record = Record(id: string, name: string, input: string, output: Option<string>, error: Option<string>, finished: bool)

  datatype Totals = Totals(input: nat, output: nat, cost: Option<real>)

  datatype State = State(text: string, calls: seq<Record>, usage: Totals, pending: map<string, Record>)

  const NULL_INPUT := "null"
  const UNFINISHED := "tool call did not finish"

  const Start := State("", [], Totals(0, 0, None), map[])

  function AddUsage(t: Totals, input: nat, output: nat, cost: Option<real>): Totals {
    Totals(t.input + input, t.output + output,
           if cost.None? then t.cost else Some((if t.cost.Some? then t.cost.value else 0.0) + cost.value))
  }

  function Opened(id: string, name: string, input: string): Record {
    Record(id, name, input, None, None, false)
  }

  function Closed(start: Option<Record>, e: Event): Record
    requires e.ToolFinished?
  {
    var r := if start.Some? then start.value else Opened(e.id, "", NULL_INPUT);
    r.(output := e.output, error := e.error, finished := true)
  }

  function Pending(s: State, id: string): Option<Record> {
    if id in s.pending then Some(s.pending[id]) else None
  }

  function Accumulate(s: State, e: Event): State {
    match e
    case TextDelta(t) => s.(text := s.text + t)
    case ToolStarted(id, name, input) => s.(pending := s.pending[id := Opened(id, name, input)])
    case ToolFinished(id, _, _) => s.(calls := s.calls + [Closed(Pending(s, id), e)], pending := s.pending - {id})
    case Usage(i, o, c) => s.(usage := AddUsage(s.usage, i, o, c))
    case RunFinished(_, t) => if t.Some? && t.value != "" then s.(text := t.value) else s
    case OtherEvent => s
  }

  function AccumulateAll(events: seq<Event>): State {
    if events == [] then Start else Accumulate(AccumulateAll(Init(events)), Last(events))
  }

  // ----- The run object -----------------------------------------------------------

  datatype RunError = FlushFailed | WaitFailed

  datatype Status = Status(success: bool, code: Option<int>)

  class CliRunner {
    var text: string
    var calls: seq<Record>
    var usage: Totals
    var pending: map<string, Record>
    var finish: FinishReason
    var exitCode: Option<int>

    constructor ()
      ensures Snapshot() == Start && finish == Completed
    {
      text, calls, usage, pending := "", [], Totals(0, 0, None), map[];
      finish, exitCode := Completed, None;
    }

    function Snapshot(): State
      reads this
    {
      State(text, calls, usage, pending)
    }

    method AccumulateEvent(e: Event)
      modifies this`text, this`calls, this`usage, this`pending
      ensures Snapshot() == Accumulate(old(Snapshot()), e)
    {
      match e {
        case TextDelta(t) => text := text + t;
        case ToolStarted(id, name, input) => pending := pending[id := Opened(id, name, input)];
        case ToolFinished(id, output, error) =>
          if id in pending {
            var r := pending[id];
            pending := pending - {id};
            calls := calls + [r.(output := output, error := error, finished := true)];
          } else {
            assert pending - {id} == pending;
            calls := calls + [Record(id, "", NULL_INPUT, output, error, true)];
          }
        case Usage(i, o, c) => usage := AddUsage(usage, i, o, c);
        case RunFinished(_, t) =>
          if t.Some? && t.value != "" {
            text := t.value;
          }
        case OtherEvent =>
      }
    }

    /** One run. `chunks` are the parsed events of each output chunk, `cancelAt` the chunk before
        which cancellation is seen, `flushed` what the parser still held, `status` how the child
        exited. */
    method RunOne(chunks: seq<seq<Event>>, cancelAt: Option<nat>, flushed: Option<seq<Event>>, status: Option<Status>)
      returns (r: Result<(), RunError>)
      requires Snapshot() == Start && finish == Completed
      modifies this
      ensures r == if flushed.None? then Err(FlushFailed) else if status.None? then Err(WaitFailed) else Ok(())
      ensures r.Ok? ==>
        var stream := Streamed(chunks, cancelAt);
        var s := AccumulateAll(stream + flushed.value);
        && text == s.text && usage == s.usage
        && Drained(s, calls) && pending == map[]
        && ReasonIs(finish, stream, cancelAt.Some? && cancelAt.value < |chunks|, status.value.success)
        && exitCode == status.value.code
    {
      ghost var seen: seq<Event> := [];
      var cancelled := false;
      var k := 0;
      while k < |chunks| && !cancelled
        invariant 0 <= k <= |chunks|
        invariant cancelled ==> cancelAt == Some(k) && k < |chunks|
        invariant !cancelled && cancelAt.Some? ==> k <= cancelAt.value
        invariant seen == Concat(chunks[..k]) && Snapshot() == AccumulateAll(seen)
        invariant finish == if cancelled then Cancelled else LastReason(seen)
        decreases |chunks| - k, !cancelled
      {
        if cancelAt == Some(k) {
          finish := Cancelled;
          cancelled := true;
        } else {
          Consume(seen, chunks[k]);
          seen := seen + chunks[k];
          assert Init(chunks[..k + 1]) == chunks[..k];
          k := k + 1;
        }
      }
      assert seen == Streamed(chunks, cancelAt) by {
        assert chunks[..|chunks|] == chunks;
      }
      if flushed.None? {
        return Err(FlushFailed);
      }
      Flush(seen, flushed.value);
      if status.None? {
        return Err(WaitFailed);
      }
      exitCode := status.value.code;
      ghost var s := Snapshot();
      DrainPending();
      if !status.value.success && finish == Completed {
        finish := ProcessError;
      }
      EndsAs(seen, cancelled, status.value.success);
      r := Ok(());
    }

    /** The events of one chunk: accumulated, and the run's reason taken from its finish events. */
    method Consume(ghost seen: seq<Event>, events: seq<Event>)
      requires Snapshot() == AccumulateAll(seen) && finish == LastReason(seen)
      modifies this`text, this`calls, this`usage, this`pending, this`finish
      ensures Snapshot() == AccumulateAll(seen + events) && finish == LastReason(seen + events)
    {
      assert seen + events[..0] == seen;
      for i := 0 to |events|
        invariant Snapshot() == AccumulateAll(seen + events[..i]) && finish == LastReason(seen + events[..i])
      {
        assert Init(seen + events[..i + 1]) == seen + events[..i];
        AccumulateEvent(events[i]);
        if events[i].RunFinished? {
          finish := events[i].reason;
        }
      }
      assert events[..|events|] == events;
    }

    /** Trailing events are accumulated, but do not set the reason. */
    method Flush(ghost seen: seq<Event>, events: seq<Event>)
      requires Snapshot() == AccumulateAll(seen)
      modifies this`text, this`calls, this`usage, this`pending
      ensures Snapshot() == AccumulateAll(seen + events)
    {
      assert seen + events[..0] == seen;
      for i := 0 to |events|
        invariant Snapshot() == AccumulateAll(seen + events[..i])
      {
        assert Init(seen + events[..i + 1]) == seen + events[..i];
        AccumulateEvent(events[i]);
      }
      assert events[..|events|] == events;
    }

    /** Calls still pending are closed with an error, in any order. */
    method DrainPending()
      modifies this`calls, this`pending
      ensures Drained(old(Snapshot()), calls) && pending == map[]
    {
      ghost var before := Snapshot();
      ghost var order: seq<string> := [];
      while pending != map[]
        invariant pending == before.pending - (set id | id in order)
        invariant NoDup(order) && forall id <- order :: id in before.pending
        invariant calls == before.calls + Abandoned(before.pending, order)
        decreases pending.Keys
      {
        var id :| id in pending;
        var r := pending[id];
        AbandonedSnoc(before.pending, order, id);
        calls := calls + [r.(error := if r.error.Some? then r.error else Some(UNFINISHED), finished := true)];
        pending := pending - {id};
        order := order + [id];
      }
      forall id | id in before.pending
        ensures id in order
      {
        assert id !in pending;
      }
      assert DrainedIn(before, calls, order);
    }
  }

  function Concat(chunks: seq<seq<Event>>): seq<Event> {
    if chunks == [] then [] else Concat(Init(chunks)) + Last(chunks)
  }

  predicate WasCancelled(chunks: seq<seq<Event>>, cancelAt: Option<nat>) {
    cancelAt.Some? && cancelAt.value < |chunks|
  }

  /** The events read before cancellation. */
  function Streamed(chunks: seq<seq<Event>>, cancelAt: Option<nat>): seq<Event> {
    if WasCancelled(chunks, cancelAt) then Concat(chunks[..cancelAt.value]) else Concat(chunks)
  }

  /** The reason of the last finish event. */
  function LastReason(events: seq<Event>): FinishReason {
    if events == [] then Completed
    else if Last(events).RunFinished? then Last(events).reason
    else LastReason(Init(events))
  }

  /** Event `i` is the last finish event. */
  predicate LastFinish(events: seq<Event>, i: nat) {
    i < |events| && events[i].RunFinished? && forall k :: i < k < |events| ==> !events[k].RunFinished?
  }

  /** How a run ends: as cancelled; or with the reason of the last finish event of the stream, completed
      if there is none; but a run that would have completed ends with a process error if the child
      failed. */
  ghost predicate ReasonIs(reason: FinishReason, stream: seq<Event>, cancelled: bool, success: bool) {
    if cancelled then reason == Cancelled
    else
      && ((forall e <- stream :: !e.RunFinished?) ==> reason == if success then Completed else ProcessError)
      && forall i: nat :: LastFinish(stream, i) ==>
           reason == if stream[i].reason == Completed && !success then ProcessError else stream[i].reason
  }

  lemma {:induction false} LastReasonIs(stream: seq<Event>)
    ensures (forall e <- stream :: !e.RunFinished?) ==> LastReason(stream) == Completed
    ensures forall i: nat :: LastFinish(stream, i) ==> LastReason(stream) == stream[i].reason
    decreases |stream|
  {
    if stream != [] {
      EndsOf(stream);
      LastReasonIs(Init(stream));
      forall i: nat | LastFinish(stream, i)
        ensures LastReason(stream) == stream[i].reason
      {
        if !Last(stream).RunFinished? {
          assert i < |Init(stream)| && forall k :: 0 <= k < |Init(stream)| ==> Init(stream)[k] == stream[k];
          assert LastFinish(Init(stream), i);
        } else {
          assert stream[|stream| - 1].RunFinished?;
        }
      }
    }
  }

  lemma EndsAs(stream: seq<Event>, cancelled: bool, success: bool)
    ensures var reason := if cancelled then Cancelled else LastReason(stream);
      ReasonIs(if !success && reason == Completed then ProcessError else reason, stream, cancelled, success)
  {
    LastReasonIs(stream);
  }

  function Size(chunks: seq<seq<Event>>): nat {
    if chunks == [] then 0 else Size(Init(chunks)) + |Last(chunks)|
  }

  /** The stream is the first `n` chunks put together, in order. */
  ghost predicate Streams(stream: seq<Event>, chunks: seq<seq<Event>>, n: nat) {
    && n <= |chunks| && |stream| == Size(chunks[..n])
    && forall k :: 0 <= k < n ==> ChunkAt(stream, chunks, k)
  }

  ghost predicate ChunkAt(stream: seq<Event>, chunks: seq<seq<Event>>, k: nat)
    requires k < |chunks|
  {
    var at := Size(chunks[..k]);
    at + |chunks[k]| <= |stream| && stream[at..at + |chunks[k]|] == chunks[k]
  }

  lemma {:induction false} ConcatStreams(chunks: seq<seq<Event>>, n: nat)
    requires n <= |chunks|
    ensures Streams(Concat(chunks[..n]), chunks, n)
  {
    if n > 0 {
      ConcatStreams(chunks, n - 1);
      assert Init(chunks[..n]) == chunks[..n - 1] && Last(chunks[..n]) == chunks[n - 1];
      var prev := Concat(chunks[..n - 1]);
      forall k | 0 <= k < n
        ensures ChunkAt(Concat(chunks[..n]), chunks, k)
      {
        if k < n - 1 {
          assert ChunkAt(prev, chunks, k);
          var at := Size(chunks[..k]);
          assert Concat(chunks[..n])[at..at + |chunks[k]|] == prev[at..at + |chunks[k]|];
        }
      }
    }
  }

  /** The stream of a run is all its chunks, up to the one before which cancellation was seen. */
  lemma StreamedReadsChunks(chunks: seq<seq<Event>>, cancelAt: Option<nat>)
    ensures var n := if cancelAt.Some? && cancelAt.value < |chunks| then cancelAt.value else |chunks|;
      Streams(Streamed(chunks, cancelAt), chunks, n)
  {
    var n := if cancelAt.Some? && cancelAt.value < |chunks| then cancelAt.value else |chunks|;
    assert chunks[..|chunks|] == chunks;
    ConcatStreams(chunks, n);
  }

  function Abandoned(pending: map<string, Record>, order: seq<string>): seq<Record>
    requires forall id <- order :: id in pending
  {
    seq(|order|, i requires 0 <= i < |order| =>
      var r := pending[order[i]];
      r.(error := if r.error.Some? then r.error else Some(UNFINISHED), finished := true))
  }

  lemma AbandonedSnoc(pending: map<string, Record>, order: seq<string>, id: string)
    requires (forall x <- order :: x in pending) && id in pending
    ensures Abandoned(pending, order + [id])
      == Abandoned(pending, order)
         + [pending[id].(error := if pending[id].error.Some? then pending[id].error else Some(UNFINISHED), finished := true)]
  {
  }

  ghost predicate DrainedIn(s: State, calls: seq<Record>, order: seq<string>) {
    && NoDup(order) && (forall id :: id in order <==> id in s.pending)
    && calls == s.calls + Abandoned(s.pending, order)
  }

  /** The final calls are those recorded, then one abandoned record per pending id, in some order. */
  ghost predicate Drained(s: State, calls: seq<Record>) {
    exists order :: DrainedIn(s, calls, order)
  }

  // ----- Reading the result off the event stream ------------------------------------

  predicate Concerns(e: Event, id: string) {
    (e.ToolStarted? || e.ToolFinished?) && e.id == id
  }

  /** Event `j` is a start of the call that nothing before position `n` restarts or finishes. */
  predicate OpenStart(events: seq<Event>, n: nat, id: string, j: nat) {
    && j < n <= |events|
    && events[j].ToolStarted? && events[j].id == id
    && forall k :: j < k < n ==> !Concerns(events[k], id)
  }

  lemma OpenStartPrefix(events: seq<Event>, e: Event, n: nat, id: string, j: nat)
    requires n <= |events|
    ensures OpenStart(events + [e], n, id, j) <==> OpenStart(events, n, id, j)
  {
    assert forall k :: 0 <= k < |events| ==> (events + [e])[k] == events[k];
  }

  lemma OpenStartSnoc(events: seq<Event>, e: Event, id: string, j: nat)
    ensures OpenStart(events + [e], |events| + 1, id, j)
      <==> if j == |events| then e.ToolStarted? && e.id == id else OpenStart(events, |events|, id, j) && !Concerns(e, id)
  {
    assert forall k :: 0 <= k < |events| ==> (events + [e])[k] == events[k];
    assert (events + [e])[|events|] == e;
    assert Concerns(e, id) <==> Concerns((events + [e])[|events|], id);
  }

  /** A call is pending exactly when its latest start was never finished; its record is that start. */
  lemma {:induction false} PendingReadsTheStream(events: seq<Event>, id: string)
    ensures id in AccumulateAll(events).pending <==> exists j: nat :: OpenStart(events, |events|, id, j)
    ensures forall j: nat :: OpenStart(events, |events|, id, j) ==>
      Pending(AccumulateAll(events), id) == Some(Opened(id, events[j].name, events[j].input))
    decreases |events|
  {
    if events != [] {
      var prev, e := Init(events), Last(events);
      assert events == prev + [e];
      PendingReadsTheStream(prev, id);
      forall j: nat
        ensures OpenStart(events, |events|, id, j)
          <==> if j == |prev| then e.ToolStarted? && e.id == id else OpenStart(prev, |prev|, id, j) && !Concerns(e, id)
      {
        OpenStartSnoc(prev, e, id, j);
      }
      if e.ToolStarted? && e.id == id {
        assert OpenStart(events, |events|, id, |prev|);
      } else if id in AccumulateAll(prev).pending {
        var j: nat :| OpenStart(prev, |prev|, id, j);
        assert !Concerns(e, id) ==> OpenStart(events, |events|, id, j);
      }
    }
  }

  function Finishes(events: seq<Event>): nat {
    if events == [] then 0 else Finishes(Init(events)) + if Last(events).ToolFinished? then 1 else 0
  }

  /** The record a finish event at position `i` gives: outcome from the event, name and input from
      the open start, if there is one. */
  ghost predicate RecordOf(events: seq<Event>, i: nat, r: Record)
    requires i < |events| && events[i].ToolFinished?
  {
    var e := events[i];
    && r.id == e.id && r.output == e.output && r.error == e.error && r.finished
    && (forall j: nat :: OpenStart(events, i, e.id, j) ==> r.name == events[j].name && r.input == events[j].input)
    && ((forall j: nat :: !OpenStart(events, i, e.id, j)) ==> r.name == "" && r.input == NULL_INPUT)
  }

  lemma {:induction false} CallsCount(events: seq<Event>)
    ensures |AccumulateAll(events).calls| == Finishes(events)
    decreases |events|
  {
    if events != [] {
      CallsCount(Init(events));
    }
  }

  lemma RecordOfPrefix(events: seq<Event>, e: Event, i: nat, r: Record)
    requires i < |events| && events[i].ToolFinished? && RecordOf(events, i, r)
    ensures RecordOf(events + [e], i, r)
  {
    forall j: nat
      ensures OpenStart(events + [e], i, events[i].id, j) <==> OpenStart(events, i, events[i].id, j)
    {
      OpenStartPrefix(events, e, i, events[i].id, j);
    }
  }

  /** The recorded calls are one per finish event, in order, each with its own start. */
  lemma {:induction false} CallsReadTheStream(events: seq<Event>, i: nat)
    requires i < |events| && events[i].ToolFinished?
    ensures |AccumulateAll(events).calls| == Finishes(events)
    ensures Finishes(events[..i]) < |AccumulateAll(events).calls|
    ensures RecordOf(events, i, AccumulateAll(events).calls[Finishes(events[..i])])
    decreases |events|
  {
    CallsCount(events);
    var prev, e := Init(events), Last(events);
    assert events == prev + [e];
    var s := AccumulateAll(prev);
    if i == |prev| {
      assert events[..i] == prev;
      CallsCount(prev);
      PendingReadsTheStream(prev, e.id);
      forall j: nat
        ensures OpenStart(events, i, e.id, j) <==> OpenStart(prev, i, e.id, j)
      {
        OpenStartPrefix(prev, e, i, e.id, j);
      }
      assert AccumulateAll(events).calls[|s.calls|] == Closed(Pending(s, e.id), e);
    } else {
      CallsReadTheStream(prev, i);
      assert events[..i] == prev[..i];
      RecordOfPrefix(prev, e, i, s.calls[Finishes(prev[..i])]);
    }
  }

  function Deltas(events: seq<Event>): string {
    if events == [] then "" else Deltas(Init(events)) + if Last(events).TextDelta? then Last(events).text else ""
  }

  predicate Replaces(e: Event) {
    e.RunFinished? && e.resultText.Some? && e.resultText.value != ""
  }

  /** Event `i` is the last finish event with a non-empty text. */
  predicate LastReplacement(events: seq<Event>, i: nat) {
    i < |events| && Replaces(events[i]) && forall k :: i < k < |events| ==> !Replaces(events[k])
  }

  /** Without a non-empty finish text the final text is all deltas. */
  lemma {:induction false} TextIsDeltas(events: seq<Event>)
    requires forall e <- events :: !Replaces(e)
    ensures AccumulateAll(events).text == Deltas(events)
    decreases |events|
  {
    if events != [] {
      assert events == Init(events) + [Last(events)];
      TextIsDeltas(Init(events));
      TextStep(AccumulateAll(Init(events)), Last(events));
    }
  }

  /** Otherwise it is the last non-empty finish text followed by the later deltas. */
  lemma {:induction false} TextReadsTheStream(events: seq<Event>, i: nat)
    requires LastReplacement(events, i)
    ensures AccumulateAll(events).text == events[i].resultText.value + Deltas(events[i + 1..])
    decreases |events|
  {
    var prev, e := Init(events), Last(events);
    TextStep(AccumulateAll(prev), e);
    LastReplacementStep(events, i);
    if i < |prev| {
      TextReadsTheStream(prev, i);
      DeltasStep(events, i);
    } else {
      assert events[i + 1..] == [];
    }
  }

  lemma LastReplacementStep(events: seq<Event>, i: nat)
    requires LastReplacement(events, i)
    ensures i < |events| - 1 ==> LastReplacement(Init(events), i) && !Replaces(Last(events))
    ensures i == |events| - 1 ==> Replaces(Last(events))
  {
    assert Last(events) == events[|events| - 1];
    assert forall k :: 0 <= k < |Init(events)| ==> Init(events)[k] == events[k];
  }

  lemma DeltasStep(events: seq<Event>, i: nat)
    requires i < |events| - 1
    ensures Deltas(events[i + 1..])
         == Deltas(Init(events)[i + 1..]) + (if Last(events).TextDelta? then Last(events).text else "")
  {
    assert Init(events[i + 1..]) == Init(events)[i + 1..] && Last(events[i + 1..]) == Last(events);
  }

  lemma TextStep(s: State, e: Event)
    ensures Replaces(e) ==> Accumulate(s, e).text == e.resultText.value
    ensures !Replaces(e) ==> Accumulate(s, e).text == s.text + (if e.TextDelta? then e.text else "")
  {
  }

  function InputTokens(events: seq<Event>): nat {
    if events == [] then 0 else InputTokens(Init(events)) + if Last(events).Usage? then Last(events).inputTokens else 0
  }

  function OutputTokens(events: seq<Event>): nat {
    if events == [] then 0 else OutputTokens(Init(events)) + if Last(events).Usage? then Last(events).outputTokens else 0
  }

  predicate Priced(e: Event) {
    e.Usage? && e.cost.Some?
  }

  function Cost(events: seq<Event>): real {
    if events == [] then 0.0 else Cost(Init(events)) + if Priced(Last(events)) then Last(events).cost.value else 0.0
  }

  /** Usage is the sum of the usage events; a cost is reported exactly if some event had one. */
  lemma {:induction false} UsageReadsTheStream(events: seq<Event>)
    ensures var u := AccumulateAll(events).usage;
      && u.input == InputTokens(events) && u.output == OutputTokens(events)
      && (u.cost.Some? <==> exists k :: 0 <= k < |events| && Priced(events[k]))
      && Cost(events) == (if u.cost.Some? then u.cost.value else 0.0)
    decreases |events|
  {
    if events != [] {
      var prev, e := Init(events), Last(events);
      UsageReadsTheStream(prev);
      assert events == prev + [e];
      if Priced(e) {
        assert Priced(events[|prev|]);
      } else if AccumulateAll(prev).usage.cost.Some? {
        var k :| 0 <= k < |prev| && Priced(prev[k]);
        assert Priced(events[k]);
      }
    }
  }

  /** A synthetic record for a call that was started by event `j` and not finished. */
  predicate AbandonedRecord(r: Record, events: seq<Event>, id: string, j: nat) {
    && OpenStart(events, |events|, id, j)
    && r == Record(id, events[j].name, events[j].input, None, Some("tool call did not finish"), true)
  }

  /** The records after the first `n`, read as the abandoned calls in some order. */
  ghost predicate AbandonedTail(calls: seq<Record>, n: nat, order: seq<string>, events: seq<Event>) {
    && |calls| == n + |order|
    && forall k :: 0 <= k < |order| ==> WasAbandoned(calls[n + k], events, order[k])
  }

  ghost predicate WasAbandoned(r: Record, events: seq<Event>, id: string) {
    exists j: nat :: AbandonedRecord(r, events, id, j)
  }

  lemma DrainedTail(events: seq<Event>, calls: seq<Record>, order: seq<string>)
    requires DrainedIn(AccumulateAll(events), calls, order)
    ensures AbandonedTail(calls, Finishes(events), order, events)
    ensures calls[..Finishes(events)] == AccumulateAll(events).calls
  {
    var n := Finishes(events);
    CallsCount(events);
    forall k | 0 <= k < |order|
      ensures WasAbandoned(calls[n + k], events, order[k])
    {
      assert order[k] in order;
      PendingReadsTheStream(events, order[k]);
      var j: nat :| OpenStart(events, |events|, order[k], j);
      assert AbandonedRecord(calls[n + k], events, order[k], j);
    }
  }

  /** The final call records of a whole stream: one per finish event in order, then exactly one
      synthetic-error record for each call whose latest start was never finished. */
  lemma FinalCalls(events: seq<Event>, calls: seq<Record>) returns (order: seq<string>)
    requires Drained(AccumulateAll(events), calls)
    ensures Finishes(events) <= |calls| && calls[..Finishes(events)] == AccumulateAll(events).calls
    ensures AbandonedTail(calls, Finishes(events), order, events) && NoDup(order)
    ensures forall id :: id in order <==> exists j: nat :: OpenStart(events, |events|, id, j)
  {
    order :| DrainedIn(AccumulateAll(events), calls, order);
    DrainedTail(events, calls, order);
    forall id
      ensures id in order <==> exists j: nat :: OpenStart(events, |events|, id, j)
    {
      PendingReadsTheStream(events, id);
    }
  }
}
