/** The Signal provider's JSON-RPC socket: line framing, and the demultiplexer that matches
    responses to waiting sends. */
module SignalRpc {
  import opened Prelude

  // ----- Line framing ---------------------------------------------------------

  type Byte = b: nat | b < 256

  const LF: Byte := 10
  const CR: Byte := 13

  /** A frame as written: a newline is appended unless the frame already ends in one. */
  function Framed(frame: seq<Byte>): seq<Byte> {
    if frame != [] && Last(frame) == LF then frame else frame + [LF]
  }

  /** A frame goes out as it is, with exactly one newline more if it does not end in one. */
  lemma OneNewline(frame: seq<Byte>)
    ensures frame <= Framed(frame) && Framed(frame) != [] && Last(Framed(frame)) == LF
    ensures |Framed(frame)| == |frame| + if frame != [] && frame[|frame| - 1] == LF then 0 else 1
  {
    assert Framed(frame)[|Framed(frame)| - 1] == LF;
  }

  function Wire(frames: seq<seq<Byte>>): seq<Byte> {
    if frames == [] then [] else Wire(Init(frames)) + Framed(Last(frames))
  }

  lemma OneMoreFrame(before: seq<Byte>, frames: seq<seq<Byte>>, n: nat)
    requires n < |frames|
    ensures before + Wire(frames[..n]) + Framed(frames[n]) == before + Wire(frames[..n + 1])
  {
    TakeSnoc(frames, n);
    InitSnoc(frames[..n], frames[n]);
    Assoc(before, Wire(frames[..n]), Framed(frames[n]));
  }

  class Writer {
    var socket: seq<Byte>

    constructor ()
      ensures socket == []
    {
      socket := [];
    }

    /** Drains a queue of frames onto the socket, until the stop flag is seen before frame `stopAt`
        or the write of frame `fail.value.0` fails after so many bytes. `n` is the number of
        frames written whole. */
    method WriteAll(frames: seq<seq<Byte>>, stopAt: Option<nat>, fail: Option<(nat, nat)>) returns (n: nat)
      modifies this
      ensures n <= |frames| && (stopAt.Some? ==> n <= stopAt.value) && (fail.Some? ==> n <= fail.value.0)
      ensures n == |frames| || stopAt == Some(n) ==> socket == old(socket) + Wire(frames[..n])
      ensures n < |frames| && stopAt != Some(n) ==>
        fail.Some? && fail.value.0 == n
        && socket == old(socket) + Wire(frames[..n]) + Through(frames[n], Some(fail.value.1))
    {
      n := 0;
      while n < |frames| && stopAt != Some(n)
        invariant n <= |frames| && socket == old(socket) + Wire(frames[..n])
        invariant (stopAt.Some? ==> n <= stopAt.value) && (fail.Some? ==> n <= fail.value.0)
      {
        OneMoreFrame(old(socket), frames, n);
        if fail.Some? && fail.value.0 == n {
          WriteFrame(frames[n], Some(fail.value.1));
          return;
        }
        WriteFrame(frames[n], None);
        n := n + 1;
      }
    }

    /** Writes one frame, or as many bytes of it as get through. */
    method WriteFrame(frame: seq<Byte>, through: Option<nat>)
      modifies this
      ensures socket == old(socket) + Through(frame, through)
    {
      var bytes := frame;
      if bytes == [] || bytes[|bytes| - 1] != LF {
        bytes := bytes + [LF];
      }
      assert bytes == Framed(frame);
      if through.Some? && through.value < |bytes| {
        bytes := bytes[..through.value];
      }
      socket := socket + bytes;
    }
  }

  /** As many bytes of a frame, with its newline, as get through. */
  function Through(frame: seq<Byte>, through: Option<nat>): (sent: seq<Byte>)
    ensures sent <= Framed(frame)
    ensures |sent| == if through.Some? && through.value < |Framed(frame)| then through.value else |Framed(frame)|
  {
    var bytes := Framed(frame);
    if through.Some? && through.value < |bytes| then bytes[..through.value] else bytes
  }

  function StripCr(line: seq<Byte>): seq<Byte> {
    if line != [] && Last(line) == CR then Init(line) else line
  }

  /** The reader's line rule: lines end at a newline, which is dropped together with one carriage
      return before it; an unterminated rest is the last line. `line` is what was read so far. */
  function Lines(line: seq<Byte>, stream: seq<Byte>): seq<seq<Byte>>
    decreases |stream|
  {
    if stream == [] then (if line == [] then [] else [line])
    else if stream[0] == LF then [StripCr(line)] + Lines([], stream[1..])
    else Lines(line + [stream[0]], stream[1..])
  }

  /** A frame survives the line rule: no newline inside, no carriage return at the end. */
  predicate LineSafe(frame: seq<Byte>) {
    LF !in frame && (frame == [] || Last(frame) != CR)
  }

  lemma {:induction false} LineEnds(line: seq<Byte>, frame: seq<Byte>, rest: seq<Byte>)
    requires LF !in frame
    ensures Lines(line, frame + [LF] + rest) == [StripCr(line + frame)] + Lines([], rest)
    decreases |frame|
  {
    var stream := frame + [LF] + rest;
    if frame == [] {
      assert stream[1..] == rest && line + frame == line;
    } else {
      assert stream[0] == frame[0] && frame[0] in frame && stream[1..] == frame[1..] + [LF] + rest;
      LineEnds(line + [frame[0]], frame[1..], rest);
      assert line + [frame[0]] + frame[1..] == line + frame;
    }
  }

  lemma WireLast(frames: seq<seq<Byte>>)
    requires frames != []
    ensures Wire(frames) == Wire(Init(frames)) + Framed(Last(frames))
  {
  }

  lemma {:induction false} WireFront(frames: seq<seq<Byte>>)
    requires frames != []
    ensures Wire(frames) == Framed(frames[0]) + Wire(frames[1..])
    decreases |frames|
  {
    if |frames| == 1 {
      assert Init(frames) == [] && frames[1..] == [];
    } else {
      WireFront(Init(frames));
      WireLast(frames[1..]);
      assert Init(frames)[1..] == Init(frames[1..]) && Last(frames[1..]) == Last(frames);
      Assoc(Framed(frames[0]), Wire(Init(frames[1..])), Framed(Last(frames)));
    }
  }

  function StripAll(frames: seq<seq<Byte>>): seq<seq<Byte>> {
    seq(|frames|, i requires 0 <= i < |frames| => StripCr(frames[i]))
  }

  lemma FirstLine(f: seq<Byte>, rest: seq<Byte>)
    requires LF !in f
    ensures Lines([], Framed(f) + rest) == [StripCr(f)] + Lines([], rest)
  {
    assert Framed(f) == f + [LF];
    LineEnds([], f, rest);
    assert [] + f == f;
  }

  lemma {:induction false} LinesOfFrames(frames: seq<seq<Byte>>, rest: seq<Byte>)
    requires forall f <- frames :: LF !in f
    ensures Lines([], Wire(frames) + rest) == StripAll(frames) + Lines([], rest)
    decreases |frames|
  {
    if frames == [] {
      assert Wire(frames) + rest == rest && StripAll(frames) == [];
    } else {
      var f, tail := frames[0], Wire(frames[1..]) + rest;
      WireFront(frames);
      Assoc(Framed(f), Wire(frames[1..]), rest);
      assert LF !in f;
      FirstLine(f, tail);
      LinesOfFrames(frames[1..], rest);
      assert StripAll(frames) == [StripCr(f)] + StripAll(frames[1..]);
      Assoc([StripCr(f)], StripAll(frames[1..]), Lines([], rest));
    }
  }

  lemma ReadBack(frames: seq<seq<Byte>>)
    requires forall f <- frames :: LF !in f
    ensures Lines([], Wire(frames)) == StripAll(frames)
  {
    LinesOfFrames(frames, []);
    assert Wire(frames) + [] == Wire(frames) && StripAll(frames) + [] == StripAll(frames);
  }

  lemma {:induction false} LinesHaveNoNewline(line: seq<Byte>, stream: seq<Byte>)
    requires LF !in line
    ensures forall l <- Lines(line, stream) :: LF !in l
    decreases |stream|
  {
    if stream != [] {
      if stream[0] == LF {
        LinesHaveNoNewline([], stream[1..]);
        assert forall x <- StripCr(line) :: x in line;
      } else {
        LinesHaveNoNewline(line + [stream[0]], stream[1..]);
      }
    }
  }

  /** Exactly when framing is faithful: written frames read back unchanged, one line each and in
      order, if and only if none contains a newline or ends in a carriage return. */
  lemma FramingRoundTripIff(frames: seq<seq<Byte>>)
    ensures Lines([], Wire(frames)) == frames <==> forall f <- frames :: LineSafe(f)
  {
    if forall f <- frames :: LineSafe(f) {
      ReadBack(frames);
      assert StripAll(frames) == frames by {
        assert forall i :: 0 <= i < |frames| ==> LineSafe(frames[i]);
      }
    }
    if Lines([], Wire(frames)) == frames {
      LinesHaveNoNewline([], Wire(frames));
      ReadBack(frames);
      forall f | f in frames
        ensures LineSafe(f)
      {
        var i :| 0 <= i < |frames| && frames[i] == f;
        assert StripAll(frames)[i] == StripCr(f) == f;
      }
    }
  }

  lemma {:induction false} Unterminated(line: seq<Byte>, part: seq<Byte>)
    requires LF !in part
    ensures Lines(line, part) == if line + part == [] then [] else [line + part]
    decreases |part|
  {
    if part != [] {
      assert part[0] in part && line + [part[0]] + part[1..] == line + part;
      Unterminated(line + [part[0]], part[1..]);
    } else {
      assert line + part == line;
    }
  }

  /** However the stream is cut: from any beginning of it the reader gets the frames that arrived
      whole, unchanged and in order, and at most one line more, a beginning of the next frame. */
  lemma CutStream(frames: seq<seq<Byte>>, n: nat, part: seq<Byte>)
    requires (forall f <- frames :: LineSafe(f)) && n <= |frames|
    requires if n < |frames| then part <= frames[n] else part == []
    ensures Lines([], Wire(frames[..n]) + part) == frames[..n] + if part == [] then [] else [part]
  {
    assert forall f <- frames[..n] :: f in frames;
    if n < |frames| {
      assert frames[n] in frames;
      assert forall x <- part :: x in frames[n];
    }
    LinesOfFrames(frames[..n], part);
    Unterminated([], part);
    assert [] + part == part;
    forall i | 0 <= i < n
      ensures StripCr(frames[i]) == frames[i]
    {
      assert frames[i] in frames;
    }
    assert StripAll(frames[..n]) == frames[..n];
  }

  // ----- Responses and waiting sends ---------------------------------------------

  /** The content of a response frame as `send` reads it. `MarkedClosed` carries the marker field
      that the listener itself uses. */
  datatype Body = MarkedClosed | ErrorBody(message: string) | NoResult | NoTimestamp | Timestamp(t: int)

  datatype JsonId = StringId(s: string) | OtherId(rendered: string)

  datatype Frame =
    | BadJson
    | Response(id: JsonId, wellFormed: bool, body: Body)
    | Notification

  datatype Value = Reply(body: Body) | ListenerClosed

  datatype Outcome = Acked(timestamp: int) | Transport(reason: Reason) | Provider(reason: Reason)

  datatype Reason = WriterDropped | TimedOut | ClosedDuringSend | RemoteError(message: string) | MissingResult | MissingTimestamp

  /** Where a send stands: its id registered, its frame written, leaving with an error before it
      has forgotten its id, or finished. */
  datatype Phase = Registered | Waiting | Leaving(outcome: Outcome) | Done(outcome: Outcome)

  /** `pending` are the ids with a waiting entry, `slots` the values handed to sends that were
      still listening, `log` every entry taken out by the reader, with its value, in order. */
  datatype State = State(pending: set<string>, slots: map<string, Value>, phases: map<string, Phase>, log: seq<(string, Value)>)

  datatype Event =
    | Register(id: string) | WriteOk(id: string) | WriteFailed(id: string)
    | Read(frame: Frame) | Close
    | Receive(id: string) | Timeout(id: string) | Forget(id: string)

  function Render(id: JsonId): string {
    if id.StringId? then id.s else id.rendered
  }

  function Classify(v: Value): Outcome {
    match v
    case ListenerClosed => Transport(ClosedDuringSend)
    case Reply(MarkedClosed) => Transport(ClosedDuringSend)
    case Reply(ErrorBody(m)) => Provider(RemoteError(m))
    case Reply(NoResult) => Provider(MissingResult)
    case Reply(NoTimestamp) => Provider(MissingTimestamp)
    case Reply(Timestamp(t)) => Acked(t)
  }

  predicate Listening(s: State, id: string) {
    id in s.phases && (s.phases[id].Registered? || s.phases[id].Waiting?)
  }

  /** Takes the entry out and hands over the value; a send that has stopped listening drops it. */
  function Deliver(s: State, id: string, v: Value): State {
    State(s.pending - {id}, if Listening(s, id) then s.slots[id := v] else s.slots, s.phases, s.log + [(id, v)])
  }

  function DeliverAll(s: State, ids: seq<string>): State {
    if ids == [] then s else Deliver(DeliverAll(s, Init(ids)), Last(ids), ListenerClosed)
  }

  /** The reader's handling of one frame. */
  function Handle(s: State, f: Frame): State {
    if f.Response? && f.wellFormed && Render(f.id) in s.pending then Deliver(s, Render(f.id), Reply(f.body)) else s
  }

  function SetPhase(s: State, id: string, p: Phase): State {
    s.(phases := s.phases[id := p])
  }

  /** A new entry and a new send; an entry of the same id is overwritten, with what it may have
      received. */
  function Registering(s: State, id: string): State {
    State(s.pending + {id}, s.slots - {id}, s.phases[id := Phase.Registered], s.log)
  }

  /** Takes the entry out, if there is one; a send that is leaving is done. */
  function Forgetting(s: State, id: string): State {
    (if id in s.phases && s.phases[id].Leaving? then SetPhase(s, id, Done(s.phases[id].outcome)) else s)
    .(pending := s.pending - {id})
  }

  /** The ids in some order: the order in which the map is drained. */
  ghost predicate Enumerates(ids: seq<string>, s: set<string>) {
    NoDup(ids) && forall id :: id in ids <==> id in s
  }

  /** One step of one of the tasks. Steps a task cannot take are no steps. */
  ghost predicate Next(s: State, e: Event, s': State) {
    match e
    case Register(id) => id !in s.phases && s' == Registering(s, id)
    case WriteOk(id) => id in s.phases && s.phases[id].Registered? && s' == SetPhase(s, id, Waiting)
    case WriteFailed(id) => id in s.phases && s.phases[id].Registered? && s' == SetPhase(s, id, Leaving(Transport(WriterDropped)))
    case Read(f) => s' == Handle(s, f)
    case Close => exists ids :: Enumerates(ids, s.pending) && s' == DeliverAll(s, ids)
    case Receive(id) =>
      id in s.phases && s.phases[id].Waiting? && id in s.slots && s' == SetPhase(s, id, Done(Classify(s.slots[id])))
    case Timeout(id) =>
      id in s.phases && s.phases[id].Waiting? && id !in s.slots && s' == SetPhase(s, id, Leaving(Transport(TimedOut)))
    case Forget(id) =>
      id in s.phases && s.phases[id].Leaving? && s' == Forgetting(s, id)
  }

  const Start := State({}, map[], map[], [])

  /** `states[i]` leads to `states[i + 1]` by `events[i]`: one interleaving. */
  ghost predicate IsRun(states: seq<State>, events: seq<Event>) {
    && |states| == |events| + 1 && states[0] == Start
    && forall i :: 0 <= i < |events| ==> Next(states[i], events[i], states[i + 1])
  }

  // ----- The listener object ---------------------------------------------------------

  class Listener {
    var pending: set<string>
    var slots: map<string, Value>
    var phases: map<string, Phase>
    var log: seq<(string, Value)>

    constructor ()
      ensures Snapshot() == Start
    {
      pending, slots, phases, log := {}, map[], map[], [];
    }

    function Snapshot(): State
      reads this
    {
      State(pending, slots, phases, log)
    }

    method RegisterId(id: string)
      modifies this
      ensures Snapshot() == Registering(old(Snapshot()), id)
      ensures id !in old(phases) ==> Next(old(Snapshot()), Register(id), Snapshot())
    {
      pending := pending + {id};
      slots := slots - {id};
      phases := phases[id := Phase.Registered];
    }

    method ForgetId(id: string)
      modifies this
      ensures Snapshot() == Forgetting(old(Snapshot()), id)
      ensures id in old(phases) && old(phases[id]).Leaving? ==> Next(old(Snapshot()), Forget(id), Snapshot())
    {
      pending := pending - {id};
      if id in phases && phases[id].Leaving? {
        phases := phases[id := Done(phases[id].outcome)];
      }
    }

    /** Handles one frame; answers whether it could be parsed. */
    method HandleFrame(f: Frame) returns (ok: bool)
      modifies this
      ensures Next(old(Snapshot()), Read(f), Snapshot())
      ensures ok <==> !f.BadJson? && (f.Response? ==> f.wellFormed)
    {
      if f.BadJson? || (f.Response? && !f.wellFormed) {
        return false;
      }
      ok := true;
      if f.Response? {
        var id := Render(f.id);
        if id in pending {
          if Listening(Snapshot(), id) {
            slots := slots[id := Reply(f.body)];
          }
          pending := pending - {id};
          log := log + [(id, Reply(f.body))];
        }
      }
    }

    /** The end of the reader: every waiting entry is told that the listener closed. */
    method Drain()
      modifies this
      ensures Next(old(Snapshot()), Close, Snapshot())
    {
      ghost var ids: seq<string> := [];
      while pending != {}
        invariant forall id :: id in pending || id in ids <==> id in old(pending)
        invariant forall id <- ids :: id !in pending
        invariant NoDup(ids)
        invariant Snapshot() == DeliverAll(old(Snapshot()), ids)
        decreases pending
      {
        var id :| id in pending;
        assert Init(ids + [id]) == ids;
        if Listening(Snapshot(), id) {
          slots := slots[id := ListenerClosed];
        }
        pending := pending - {id};
        log := log + [(id, ListenerClosed)];
        ids := ids + [id];
      }
      assert Enumerates(ids, old(pending));
    }
  }

  // ----- What every interleaving keeps ------------------------------------------------

  /** The send gave up by itself. */
  predicate Unanswered(o: Outcome) {
    o == Transport(WriterDropped) || o == Transport(TimedOut)
  }

  /** The outcome is that of a send that gave up, or follows from a value the reader took out for
      this id. */
  ghost predicate Explained(s: State, id: string, o: Outcome) {
    Unanswered(o) || exists v :: (id, v) in s.log && o == Classify(v)
  }

  ghost predicate Inv(s: State) {
    && (forall id <- s.pending :: id in s.phases && !s.phases[id].Done?)
    && (forall i :: 0 <= i < |s.log| ==> s.log[i].0 !in s.pending && s.log[i].0 in s.phases)
    && (forall i, j :: 0 <= i < j < |s.log| ==> s.log[i].0 != s.log[j].0)
    && (forall id :: id in s.slots ==> (id, s.slots[id]) in s.log)
    && (forall id :: Listening(s, id) ==> (id in s.pending <==> id !in s.slots))
    && (forall id :: id in s.phases && s.phases[id].Leaving? ==> Unanswered(s.phases[id].outcome))
    && (forall id :: id in s.phases && s.phases[id].Done? ==> Explained(s, id, s.phases[id].outcome))
  }

  lemma DeliverKeeps(s: State, id: string, v: Value)
    requires Inv(s) && id in s.pending
    ensures Inv(Deliver(s, id, v))
  {
    var s' := Deliver(s, id, v);
    forall k | k in s'.slots
      ensures (k, s'.slots[k]) in s'.log
    {
      if k == id && Listening(s, id) {
        assert s'.log[|s.log|] == (id, v);
      }
    }
    assert forall x :: x in s.log ==> x in s'.log;
  }

  lemma {:induction false} DeliverAllKeeps(s: State, ids: seq<string>)
    requires Inv(s) && NoDup(ids) && forall id <- ids :: id in s.pending
    ensures Inv(DeliverAll(s, ids))
    ensures DeliverAll(s, ids).phases == s.phases
    ensures forall id :: id in DeliverAll(s, ids).pending <==> id in s.pending && id !in ids
    ensures forall id <- ids :: Listening(s, id) ==> id in DeliverAll(s, ids).slots && DeliverAll(s, ids).slots[id] == ListenerClosed
    decreases |ids|
  {
    if ids != [] {
      assert ids == Init(ids) + [Last(ids)];
      assert Last(ids) in ids && Last(ids) !in Init(ids);
      DeliverAllKeeps(s, Init(ids));
      DeliverKeeps(DeliverAll(s, Init(ids)), Last(ids), ListenerClosed);
    }
  }

  lemma RegisterKeeps(s: State, id: string, s': State)
    requires Inv(s) && Next(s, Register(id), s')
    ensures Inv(s')
  {
  }

  /** A send moves on without finishing. */
  lemma MoveKeeps(s: State, id: string, p: Phase)
    requires Inv(s) && Listening(s, id) && !p.Done? && (p.Leaving? ==> Unanswered(p.outcome))
    ensures Inv(SetPhase(s, id, p))
  {
  }

  lemma ReceiveKeeps(s: State, id: string)
    requires Inv(s) && Listening(s, id) && id in s.slots
    ensures Inv(SetPhase(s, id, Done(Classify(s.slots[id]))))
  {
  }

  lemma ForgetKeeps(s: State, id: string, s': State)
    requires Inv(s) && Next(s, Forget(id), s')
    ensures Inv(s')
  {
  }

  lemma CloseKeeps(s: State, s': State)
    requires Inv(s) && Next(s, Close, s')
    ensures Inv(s')
  {
    var ids :| Enumerates(ids, s.pending) && s' == DeliverAll(s, ids);
    DeliverAllKeeps(s, ids);
  }

  lemma NextKeeps(s: State, e: Event, s': State)
    requires Inv(s) && Next(s, e, s')
    ensures Inv(s')
  {
    match e
    case Register(id) => RegisterKeeps(s, id, s');
    case WriteOk(id) => MoveKeeps(s, id, Waiting);
    case WriteFailed(id) => MoveKeeps(s, id, Leaving(Transport(WriterDropped)));
    case Read(f) =>
      if s' != s {
        DeliverKeeps(s, Render(f.id), Reply(f.body));
      }
    case Close => CloseKeeps(s, s');
    case Receive(id) => ReceiveKeeps(s, id);
    case Timeout(id) => MoveKeeps(s, id, Leaving(Transport(TimedOut)));
    case Forget(id) => ForgetKeeps(s, id, s');
  }

  lemma {:induction false} RunKeeps(states: seq<State>, events: seq<Event>)
    requires IsRun(states, events)
    ensures Inv(Last(states))
    decreases |events|
  {
    if events != [] {
      RunKeeps(Init(states), Init(events));
      NextKeeps(Last(Init(states)), Last(events), Last(states));
    }
  }

  /** In every interleaving each send is fulfilled at most once, and a finished send leaves no
      pending entry. */
  lemma FulfilledAtMostOnce(states: seq<State>, events: seq<Event>)
    requires IsRun(states, events)
    ensures var s := Last(states);
      && (forall i, j :: 0 <= i < j < |s.log| ==> s.log[i].0 != s.log[j].0)
      && (forall id :: id in s.phases && s.phases[id].Done? ==> id !in s.pending)
      && ((forall id :: id in s.phases ==> s.phases[id].Done?) ==> s.pending == {})
  {
    RunKeeps(states, events);
  }

  /** Nobody is left without an answer by the demultiplexer: a send that still listens either has
      its value or its entry is still there for a response, the close, or its own timeout. When
      the reader closes, every listening send has a value. */
  lemma CloseAnswersAll(states: seq<State>, events: seq<Event>)
    requires IsRun(states, events) && events != [] && Last(events).Close?
    ensures var s := Last(states); s.pending == {} && forall id :: Listening(s, id) ==> id in s.slots
  {
    RunKeeps(Init(states), Init(events));
    RunKeeps(states, events);
    var prev := Last(Init(states));
    assert Next(prev, Last(events), Last(states));
    var ids :| Enumerates(ids, prev.pending) && Last(states) == DeliverAll(prev, ids);
    DeliverAllKeeps(prev, ids);
  }

  /** The reader read a well-formed response frame with this id and body. */
  ghost predicate Answered(events: seq<Event>, id: string, body: Body) {
    exists i :: 0 <= i < |events| && events[i].Read? && events[i].frame.Response? && events[i].frame.wellFormed
      && Render(events[i].frame.id) == id && events[i].frame.body == body
  }

  ghost predicate Genuine(s: State, events: seq<Event>) {
    forall i :: 0 <= i < |s.log| && s.log[i].1.Reply? ==> Answered(events, s.log[i].0, s.log[i].1.body)
  }

  lemma {:induction false} DeliverAllLogs(s: State, ids: seq<string>)
    ensures |DeliverAll(s, ids).log| == |s.log| + |ids| && s.log <= DeliverAll(s, ids).log
    ensures forall i :: |s.log| <= i < |DeliverAll(s, ids).log| ==> DeliverAll(s, ids).log[i].1 == ListenerClosed
    decreases |ids|
  {
    if ids != [] {
      DeliverAllLogs(s, Init(ids));
    }
  }

  lemma AnsweredLater(events: seq<Event>, id: string, body: Body)
    requires events != [] && Answered(Init(events), id, body)
    ensures Answered(events, id, body)
  {
    var i :| 0 <= i < |Init(events)| && Init(events)[i].Read? && Init(events)[i].frame.Response? && Init(events)[i].frame.wellFormed
      && Render(Init(events)[i].frame.id) == id && Init(events)[i].frame.body == body;
    assert events[i] == Init(events)[i];
  }

  /** Every reply handed over came from a response frame carrying that send's own id. */
  lemma {:induction false} RepliesAreGenuine(states: seq<State>, events: seq<Event>)
    requires IsRun(states, events)
    ensures Genuine(Last(states), events)
    decreases |events|
  {
    if events != [] {
      var prev, e, s := Last(Init(states)), Last(events), Last(states);
      RepliesAreGenuine(Init(states), Init(events));
      assert Next(prev, e, s);
      if e.Close? {
        var ids :| Enumerates(ids, prev.pending) && s == DeliverAll(prev, ids);
        DeliverAllLogs(prev, ids);
      }
      forall i | 0 <= i < |s.log| && s.log[i].1.Reply?
        ensures Answered(events, s.log[i].0, s.log[i].1.body)
      {
        if i < |prev.log| {
          assert s.log[i] == prev.log[i];
          AnsweredLater(events, s.log[i].0, s.log[i].1.body);
        } else {
          assert events[|events| - 1] == e;
        }
      }
    }
  }

  /** What the events must have been for a send to end like this: its write failed, it timed out, the
      reader closed, or the peer answered its own id with exactly the body that the outcome reports. */
  ghost predicate Evidence(events: seq<Event>, id: string, o: Outcome) {
    match o
    case Transport(WriterDropped) => WriteFailed(id) in events
    case Transport(TimedOut) => Timeout(id) in events
    case Transport(ClosedDuringSend) => Close in events || Answered(events, id, MarkedClosed)
    case Provider(RemoteError(m)) => Answered(events, id, ErrorBody(m))
    case Provider(MissingResult) => Answered(events, id, NoResult)
    case Provider(MissingTimestamp) => Answered(events, id, NoTimestamp)
    case Acked(t) => Answered(events, id, Timestamp(t))
    case _ => false
  }

  ghost predicate GaveUp(s: State, events: seq<Event>, id: string) {
    id in s.phases && (s.phases[id].Leaving? || s.phases[id].Done?) ==>
      && (s.phases[id].outcome == Transport(WriterDropped) ==> WriteFailed(id) in events)
      && (s.phases[id].outcome == Transport(TimedOut) ==> Timeout(id) in events)
  }

  lemma DeliverAllMoves(s: State, ids: seq<string>)
    ensures DeliverAll(s, ids).phases == s.phases
  {
    if ids != [] {
      DeliverAllMoves(s, Init(ids));
    }
  }

  /** The step gives the send an outcome of its own only if it is the failed write or the timeout. */
  lemma StepReason(s: State, e: Event, s': State, id: string, o: Outcome)
    requires Next(s, e, s') && !e.Close? && Unanswered(o)
    requires id in s'.phases && (s'.phases[id].Leaving? || s'.phases[id].Done?) && s'.phases[id].outcome == o
    ensures (id in s.phases && (s.phases[id].Leaving? || s.phases[id].Done?) && s.phases[id].outcome == o)
         || e == if o == Transport(WriterDropped) then WriteFailed(id) else Timeout(id)
  {
  }

  lemma StepLog(s: State, e: Event, s': State, id: string)
    requires Next(s, e, s') && !e.Close?
    ensures (id, ListenerClosed) in s'.log ==> (id, ListenerClosed) in s.log
  {
  }

  /** A send gave up only for its own reason, and a listener's closing was seen only at the close. */
  lemma {:induction false} ReasonsAreGenuine(states: seq<State>, events: seq<Event>, id: string)
    requires IsRun(states, events)
    ensures GaveUp(Last(states), events, id)
    ensures (id, ListenerClosed) in Last(states).log ==> Close in events
    decreases |events|
  {
    if events != [] {
      var prev, e, s := Last(Init(states)), Last(events), Last(states);
      EndsOf(events);
      ReasonsAreGenuine(Init(states), Init(events), id);
      assert Next(prev, e, s);
      if e.Close? {
        var ids :| Enumerates(ids, prev.pending) && s == DeliverAll(prev, ids);
        DeliverAllMoves(prev, ids);
      } else {
        StepLog(prev, e, s, id);
        if id in s.phases && (s.phases[id].Leaving? || s.phases[id].Done?) && Unanswered(s.phases[id].outcome) {
          StepReason(prev, e, s, id, s.phases[id].outcome);
        }
      }
    }
  }

  /** How every finished send ended, and what in the run it follows from. */
  lemma OutcomesAreGenuine(states: seq<State>, events: seq<Event>, id: string)
    requires IsRun(states, events)
    requires id in Last(states).phases && Last(states).phases[id].Done?
    ensures Evidence(events, id, Last(states).phases[id].outcome)
  {
    RunKeeps(states, events);
    RepliesAreGenuine(states, events);
    ReasonsAreGenuine(states, events, id);
    var s := Last(states);
    var o := s.phases[id].outcome;
    if !Unanswered(o) {
      var v :| (id, v) in s.log && o == Classify(v);
      if v.Reply? {
        var i :| 0 <= i < |s.log| && s.log[i] == (id, v);
        assert Answered(events, id, v.body);
      }
    }
  }

  /** In particular it is acknowledged with a timestamp only if the peer answered its own id with
      exactly that timestamp. */
  lemma AcksAreGenuine(states: seq<State>, events: seq<Event>, id: string, t: int)
    requires IsRun(states, events)
    requires id in Last(states).phases && Last(states).phases[id] == Done(Acked(t))
    ensures Answered(events, id, Timestamp(t))
  {
    OutcomesAreGenuine(states, events, id);
  }

  // ----- The first answer counts ---------------------------------------------------------

  /** What an event gives to the send with this id: the body of a response with the id, or the close. */
  function Given(e: Event, id: string): Option<Value> {
    match e
    case Close => Some(ListenerClosed)
    case Read(Response(rid, true, body)) => if Render(rid) == id then Some(Reply(body)) else None
    case _ => None
  }

  /** Event `j` is the first since the registration at `r` that gives the send something. */
  predicate FirstGiven(events: seq<Event>, id: string, r: nat, j: nat) {
    && r < j < |events| && events[r] == Register(id) && Given(events[j], id).Some?
    && forall k :: r < k < j ==> Given(events[k], id).None?
  }

  /** The send has in its slot what it was given first since its registration, if anything. */
  ghost predicate SlotIsFirst(s: State, events: seq<Event>, id: string, r: nat) {
    && r < |events| && events[r] == Register(id)
    && (id !in s.slots ==> forall k :: r < k < |events| ==> Given(events[k], id).None?)
    && (id in s.slots ==> exists j: nat :: FirstGiven(events, id, r, j) && Given(events[j], id) == Some(s.slots[id]))
  }

  lemma {:induction false} DeliverAllSlots(s: State, ids: seq<string>, id: string)
    requires Inv(s) && NoDup(ids) && forall x <- ids :: x in s.pending
    ensures id !in ids ==>
      (id in DeliverAll(s, ids).slots <==> id in s.slots) && (id in s.slots ==> DeliverAll(s, ids).slots[id] == s.slots[id])
    decreases |ids|
  {
    if ids != [] {
      EndsOf(ids);
      DeliverAllSlots(s, Init(ids), id);
    }
  }

  /** How one step changes the slot of a send that listens before and after it. */
  lemma StepSlot(s: State, e: Event, s': State, id: string)
    requires Inv(s) && Next(s, e, s') && Listening(s, id) && Listening(s', id)
    ensures id in s.slots ==> id in s'.slots && s'.slots[id] == s.slots[id]
    ensures id !in s.slots ==> (if id in s'.slots then Given(e, id) == Some(s'.slots[id]) else Given(e, id).None?)
  {
    if e.Close? {
      var ids :| Enumerates(ids, s.pending) && s' == DeliverAll(s, ids);
      DeliverAllKeeps(s, ids);
      DeliverAllSlots(s, ids, id);
    }
  }

  lemma FirstGivenLater(prev: seq<Event>, e: Event, id: string, r: nat, j: nat)
    requires FirstGiven(prev, id, r, j)
    ensures FirstGiven(prev + [e], id, r, j)
  {
    assert forall k :: 0 <= k < |prev| ==> (prev + [e])[k] == prev[k];
  }

  lemma SlotStaysFirst(s: State, prev: seq<Event>, e: Event, s': State, id: string, r: nat)
    requires Inv(s) && Next(s, e, s') && Listening(s, id) && Listening(s', id)
    requires SlotIsFirst(s, prev, id, r)
    ensures SlotIsFirst(s', prev + [e], id, r)
  {
    var events := prev + [e];
    StepSlot(s, e, s', id);
    assert events[|prev|] == e && forall k :: 0 <= k < |prev| ==> events[k] == prev[k];
    if id in s.slots {
      var j: nat :| FirstGiven(prev, id, r, j) && Given(prev[j], id) == Some(s.slots[id]);
      FirstGivenLater(prev, e, id, r, j);
    } else if id in s'.slots {
      assert FirstGiven(events, id, r, |prev|);
    }
  }

  lemma {:induction false} SlotReadsTheRun(states: seq<State>, events: seq<Event>, id: string) returns (r: nat)
    requires IsRun(states, events) && Listening(Last(states), id)
    ensures SlotIsFirst(Last(states), events, id, r)
    decreases |events|
  {
    var prev, e, s := Last(Init(states)), Last(events), Last(states);
    assert Next(prev, e, s);
    EndsOf(events);
    RunKeeps(Init(states), Init(events));
    if e == Register(id) {
      r := |events| - 1;
    } else {
      if e.Close? {
        var ids :| Enumerates(ids, prev.pending) && s == DeliverAll(prev, ids);
        DeliverAllMoves(prev, ids);
      }
      assert Listening(prev, id);
      r := SlotReadsTheRun(Init(states), Init(events), id);
      SlotStaysFirst(prev, Init(events), e, s, id, r);
    }
  }

  /** What the value means for the send. */
  predicate Means(v: Value, o: Outcome) {
    match v
    case ListenerClosed => o == Transport(ClosedDuringSend)
    case Reply(MarkedClosed) => o == Transport(ClosedDuringSend)
    case Reply(ErrorBody(m)) => o == Provider(RemoteError(m))
    case Reply(NoResult) => o == Provider(MissingResult)
    case Reply(NoTimestamp) => o == Provider(MissingTimestamp)
    case Reply(Timestamp(t)) => o == Acked(t)
  }

  /** A send that receives something ends with what the first response with its id since its registration
      means, or the close of the reader, whichever came first; later responses do not count. */
  lemma FirstAnswerCounts(states: seq<State>, events: seq<Event>, id: string) returns (r: nat, j: nat)
    requires IsRun(states, events) && events != [] && Last(events) == Receive(id)
    ensures FirstGiven(events, id, r, j)
    ensures id in Last(states).phases && Last(states).phases[id].Done?
    ensures Means(Given(events[j], id).value, Last(states).phases[id].outcome)
  {
    var prev := Last(Init(states));
    assert Next(prev, Last(events), Last(states));
    EndsOf(events);
    r := SlotReadsTheRun(Init(states), Init(events), id);
    j :| FirstGiven(Init(events), id, r, j) && Given(Init(events)[j], id) == Some(prev.slots[id]);
    FirstGivenLater(Init(events), Last(events), id, r, j);
    assert events[j] == Init(events)[j];
  }

  /** The run goes on with these events. */
  ghost predicate Extends(states: seq<State>, events: seq<Event>, states': seq<State>, more: seq<Event>) {
    IsRun(states', events + more) && states <= states'
  }

  lemma OneMore(states: seq<State>, events: seq<Event>, e: Event, s: State)
    requires IsRun(states, events) && Next(Last(states), e, s)
    ensures IsRun(states + [s], events + [e]) && Last(states + [s]) == s
  {
    var states', events' := states + [s], events + [e];
    forall i | 0 <= i < |events'|
      ensures Next(states'[i], events'[i], states'[i + 1])
    {
      if i < |events| {
        assert Next(states[i], events[i], states[i + 1]);
      }
    }
  }

  /** A send that is answered, after any run: a fresh id is registered, its frame is written, the peer
      answers with the id, and the send ends with what that answer means. */
  lemma AnAnswerArrives(states: seq<State>, events: seq<Event>, id: string, body: Body) returns (states': seq<State>, o: Outcome)
    requires IsRun(states, events) && id !in Last(states).phases
    ensures Extends(states, events, states',
                    [Register(id), WriteOk(id), Read(Response(StringId(id), true, body)), Receive(id)])
    ensures Last(states').phases == Last(states).phases[id := Done(o)] && Means(Reply(body), o)
    ensures Last(states').pending == Last(states).pending - {id}
  {
    var s0 := Last(states);
    var e1, e2, e3, e4 := Register(id), WriteOk(id), Read(Response(StringId(id), true, body)), Receive(id);
    var s1 := Registering(s0, id);
    var s2 := SetPhase(s1, id, Waiting);
    var s3 := Handle(s2, e3.frame);
    o := Classify(s3.slots[id]);
    var s4 := SetPhase(s3, id, Done(o));
    OneMore(states, events, e1, s1);
    OneMore(states + [s1], events + [e1], e2, s2);
    OneMore(states + [s1] + [s2], events + [e1] + [e2], e3, s3);
    OneMore(states + [s1] + [s2] + [s3], events + [e1] + [e2] + [e3], e4, s4);
    states' := states + [s1] + [s2] + [s3] + [s4];
    assert events + [e1, e2, e3, e4] == events + [e1] + [e2] + [e3] + [e4];
  }

  /** No send is stuck: from any state of any run a send that is not finished can finish by steps of its
      own, whatever the peer does. */
  lemma EverySendCanFinish(states: seq<State>, events: seq<Event>, id: string) returns (states': seq<State>, more: seq<Event>)
    requires IsRun(states, events) && id in Last(states).phases
    ensures Extends(states, events, states', more)
    ensures forall e <- more :: e in {WriteFailed(id), Timeout(id), Receive(id), Forget(id)}
    ensures id in Last(states').phases && Last(states').phases[id].Done? && id !in Last(states').pending
  {
    RunKeeps(states, events);
    states', more := states, [];
    assert events + [] == events;
    var s := Last(states);
    if s.phases[id].Registered? || (s.phases[id].Waiting? && id !in s.slots) {
      var e := if s.phases[id].Registered? then WriteFailed(id) else Timeout(id);
      var o := if s.phases[id].Registered? then Transport(WriterDropped) else Transport(TimedOut);
      var s1 := SetPhase(s, id, Leaving(o));
      OneMore(states, events, e, s1);
      OneMore(states + [s1], events + [e], Forget(id), Forgetting(s1, id));
      states', more := states + [s1] + [Forgetting(s1, id)], [e, Forget(id)];
      assert events + more == events + [e] + [Forget(id)];
    } else if s.phases[id].Waiting? {
      var s1 := SetPhase(s, id, Done(Classify(s.slots[id])));
      OneMore(states, events, Receive(id), s1);
      states', more := states + [s1], [Receive(id)];
    } else if s.phases[id].Leaving? {
      OneMore(states, events, Forget(id), Forgetting(s, id));
      states', more := states + [Forgetting(s, id)], [Forget(id)];
    }
  }
}
