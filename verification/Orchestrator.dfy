/** The channel orchestrator put together: the harness operations, and one outbound worker per
    channel, over one store and interleaved step by step. A worker takes a queued message in one
    step and finishes it in another; anything may happen in between. */
module Orchestrator {
  import opened Prelude
  import opened ChannelIds
  import opened ChannelStore
  import H = ChannelHarness
  import O = Outbound
  import R = HarnessRuns

  /** A finished send: which queued message, on which channel, and the provider's calls. */
  datatype SendLog = SendLog(index: nat, channel: string, attempts: seq<O.Attempt>)

  /** The harness, the queued messages that workers have taken, the one each busy worker is at, the
      finished sends in order, and what the caller of each taken message is told. */
  datatype World = World(h: H.State, taken: set<nat>, busy: map<string, nat>, sends: seq<SendLog>,
                         results: map<nat, Result<string, O.SendError>>)

  datatype Event = Task(op: H.Op) | Take(i: nat) | Finish(channel: string, answers: seq<O.Answer>)

  function OutOf(m: H.Outgoing): O.OutboundMessage {
    O.OutboundMessage(m.threadId, m.content, m.key)
  }

  /** The worker of a channel takes its messages in the order in which they were queued. */
  predicate CanTake(x: World, i: nat) {
    && i < |x.h.outbox| && i !in x.taken && x.h.outbox[i].channel !in x.busy
    && forall j :: 0 <= j < i && x.h.outbox[j].channel == x.h.outbox[i].channel ==> j in x.taken
  }

  /** Looks the key up and checks the capabilities; only then the worker is busy with the message. */
  function Taking(x: World, i: nat): World
    requires i < |x.h.outbox|
  {
    var m, x' := x.h.outbox[i], x.(taken := x.taken + {i});
    var prev := Lookup(MessagesOf(x.h.store, m.threadId), m.key);
    if prev.Some? then x'.(results := x.results[i := Ok(prev.value)])
    else
      var caps := O.Capability(x.h.store, m.channel, OutOf(m));
      if caps.Err? then x'.(results := x.results[i := Err(O.SendError.CapabilityDenied(caps.error))])
      else x'.(busy := x.busy[m.channel := i])
  }

  function JobOf(m: H.Outgoing, answers: seq<O.Answer>, during: seq<StoreOp>): O.Job {
    O.Job(OutOf(m), answers, during)
  }

  /** The provider's calls, and the record if one was acknowledged. */
  function Finishing(x: World, channel: string, answers: seq<O.Answer>): World
    requires channel in x.busy && x.busy[channel] < |x.h.outbox|
  {
    var i := x.busy[channel];
    var job := JobOf(x.h.outbox[i], answers, []);
    var x' := x.(busy := x.busy - {channel},
                 sends := x.sends + [SendLog(i, channel, O.AttemptsOf(job, O.AttemptCount(job)))]);
    match O.FinalAnswer(job)
    case Refused(reason) => x'.(results := x.results[i := Err(O.ProviderFailed(reason))])
    case Acked(id) =>
      x'.(results := x.results[i := Ok(id)],
          h := x.h.(store := Apply(x.h.store, Append(O.RecordOf(job.out, id)))))
  }

  /** One step; steps that cannot be taken change nothing. */
  function Step(x: World, cfg: H.Config, e: Event): World {
    match e
    case Task(op) => if op.WorkerAppend? then x else x.(h := H.Step(x.h, cfg, op))
    case Take(i) => if CanTake(x, i) then Taking(x, i) else x
    case Finish(channel, answers) =>
      if channel in x.busy && x.busy[channel] < |x.h.outbox| then Finishing(x, channel, answers) else x
  }

  const Start := World(H.Start, {}, map[], [], map[])

  function Run(cfg: H.Config, events: seq<Event>): World {
    if events == [] then Start else Step(Run(cfg, Init(events)), cfg, Last(events))
  }

  // ----- The harness half -----------------------------------------------------------------

  /** The step as the harness model has it: a record written by a worker, or a harness operation. */
  function HarnessOps(x: World, e: Event): seq<H.Op> {
    match e
    case Task(op) => if op.WorkerAppend? then [] else [op]
    case Take(_) => []
    case Finish(channel, answers) =>
      if channel in x.busy && x.busy[channel] < |x.h.outbox| then
        var job := JobOf(x.h.outbox[x.busy[channel]], answers, []);
        match O.FinalAnswer(job)
        case Refused(_) => []
        case Acked(id) => [H.WorkerAppend(O.RecordOf(job.out, id))]
      else []
  }

  function HarnessRun(cfg: H.Config, events: seq<Event>): seq<H.Op> {
    if events == [] then []
    else HarnessRun(cfg, Init(events)) + HarnessOps(Run(cfg, Init(events)), Last(events))
  }

  lemma HarnessOneMore(cfg: H.Config, ops: seq<H.Op>, op: H.Op)
    ensures H.Run(cfg, ops + [op]) == H.Step(H.Run(cfg, ops), cfg, op)
  {
    InitSnoc(ops, op);
  }

  lemma StepIsHarness(x: World, cfg: H.Config, e: Event, ops: seq<H.Op>)
    requires x.h == H.Run(cfg, ops)
    ensures Step(x, cfg, e).h == H.Run(cfg, ops + HarnessOps(x, e))
  {
    var more := HarnessOps(x, e);
    if more == [] {
      assert ops + more == ops;
    } else {
      HarnessOneMore(cfg, ops, more[0]);
      assert more == [more[0]];
    }
  }

  /** The harness part of every combined run is a run of the harness model, so that its theorems
      hold of the combined system. */
  lemma {:induction false} HarnessSimulates(cfg: H.Config, events: seq<Event>)
    ensures Run(cfg, events).h == H.Run(cfg, HarnessRun(cfg, events))
    decreases |events|
  {
    if events != [] {
      HarnessSimulates(cfg, Init(events));
      StepIsHarness(Run(cfg, Init(events)), cfg, Last(events), HarnessRun(cfg, Init(events)));
    }
  }

  // ----- What every run keeps ----------------------------------------------------------------

  /** Busy workers are at taken messages of their own channel that are not finished; finished
      messages were taken, each finished once. */
  ghost predicate Orderly(x: World) {
    && (forall i <- x.taken :: i < |x.h.outbox|)
    && (forall c :: c in x.busy ==> x.busy[c] in x.taken && x.h.outbox[x.busy[c]].channel == c)
    && (forall k :: 0 <= k < |x.sends| ==>
          && x.sends[k].index in x.taken && x.sends[k].channel == x.h.outbox[x.sends[k].index].channel
          && (forall c :: c in x.busy ==> x.busy[c] != x.sends[k].index))
    && (forall k, l :: 0 <= k < l < |x.sends| ==> x.sends[k].index != x.sends[l].index)
  }

  lemma OutboxGrows(x: World, cfg: H.Config, e: Event)
    ensures x.h.outbox <= Step(x, cfg, e).h.outbox
  {
  }

  lemma FinishKeepsOrderly(x: World, channel: string, answers: seq<O.Answer>)
    requires Orderly(x) && channel in x.busy
    ensures Orderly(Finishing(x, channel, answers))
  {
  }

  lemma TakeKeepsOrderly(x: World, i: nat)
    requires Orderly(x) && CanTake(x, i)
    ensures Orderly(Taking(x, i))
  {
  }

  lemma TaskKeepsOrderly(x: World, cfg: H.Config, op: H.Op)
    requires Orderly(x)
    ensures Orderly(Step(x, cfg, Task(op)))
  {
    OutboxGrows(x, cfg, Task(op));
  }

  lemma {:induction false} RunIsOrderly(cfg: H.Config, events: seq<Event>)
    ensures Orderly(Run(cfg, events))
    decreases |events|
  {
    if events != [] {
      var x := Run(cfg, Init(events));
      RunIsOrderly(cfg, Init(events));
      match Last(events)
      case Task(op) => TaskKeepsOrderly(x, cfg, op);
      case Take(i) => if CanTake(x, i) { TakeKeepsOrderly(x, i); }
      case Finish(channel, answers) => if channel in x.busy { FinishKeepsOrderly(x, channel, answers); }
    }
  }

  /** A message is taken only after the earlier ones of its channel, and sent in that order. */
  ghost predicate InQueueOrder(x: World) {
    && (forall i, j :: i in x.taken && 0 <= j < i < |x.h.outbox| && x.h.outbox[j].channel == x.h.outbox[i].channel ==> j in x.taken)
    && (forall k, c :: 0 <= k < |x.sends| && c in x.busy && x.sends[k].channel == c ==> x.sends[k].index < x.busy[c])
    && (forall k, l :: 0 <= k < l < |x.sends| && x.sends[k].channel == x.sends[l].channel ==> x.sends[k].index < x.sends[l].index)
  }

  lemma TakeKeepsOrder(x: World, i: nat)
    requires Orderly(x) && InQueueOrder(x) && CanTake(x, i)
    ensures InQueueOrder(Taking(x, i))
  {
    var c := x.h.outbox[i].channel;
    forall k | 0 <= k < |x.sends| && x.sends[k].channel == c
      ensures x.sends[k].index < i
    {
      assert x.sends[k].index in x.taken && x.h.outbox[x.sends[k].index].channel == c;
    }
  }

  lemma FinishKeepsOrder(x: World, channel: string, answers: seq<O.Answer>)
    requires Orderly(x) && InQueueOrder(x) && channel in x.busy
    ensures InQueueOrder(Finishing(x, channel, answers))
  {
  }

  lemma TaskKeepsOrder(x: World, cfg: H.Config, op: H.Op)
    requires Orderly(x) && InQueueOrder(x)
    ensures InQueueOrder(Step(x, cfg, Task(op)))
  {
    OutboxGrows(x, cfg, Task(op));
  }

  /** Over every interleaving the messages of a channel are sent in the order in which they were
      queued, each at most once. */
  lemma {:induction false} SentInQueueOrder(cfg: H.Config, events: seq<Event>)
    ensures InQueueOrder(Run(cfg, events))
    decreases |events|
  {
    if events != [] {
      var x := Run(cfg, Init(events));
      SentInQueueOrder(cfg, Init(events));
      RunIsOrderly(cfg, Init(events));
      match Last(events)
      case Task(op) => TaskKeepsOrder(x, cfg, op);
      case Take(i) => if CanTake(x, i) { TakeKeepsOrder(x, i); }
      case Finish(channel, answers) => if channel in x.busy { FinishKeepsOrder(x, channel, answers); }
    }
  }

  // ----- The worker half -----------------------------------------------------------------------

  /** What a step does to the store. */
  function StepOps(x: World, cfg: H.Config, e: Event): seq<StoreOp> {
    var ops := HarnessOps(x, e);
    if ops == [] then [] else R.StoreOps(x.h, cfg, ops[0])
  }

  lemma StepOpsApply(x: World, cfg: H.Config, e: Event)
    ensures Step(x, cfg, e).h.store == ApplyAll(x.h.store, StepOps(x, cfg, e))
  {
    if HarnessOps(x, e) != [] {
      R.StoreOpsApply(x.h, cfg, HarnessOps(x, e)[0]);
    }
  }

  /** A combined run as the worker of one channel sees it: the events of the worker model so far,
      and what other tasks did to the store since it became busy. */
  datatype View = View(events: seq<O.Event>, during: seq<StoreOp>)

  function Others(ops: seq<StoreOp>): seq<O.Event> {
    seq(|ops|, i requires 0 <= i < |ops| => O.Other(ops[i]))
  }

  /** The step finishes what the worker of the channel is at. */
  predicate Finishes(x: World, channel: string, e: Event) {
    e.Finish? && e.channel == channel && channel in x.busy && x.busy[channel] < |x.h.outbox|
  }

  /** The worker of the channel takes a message and is done with it at once. */
  predicate AnswersAtOnce(x: World, channel: string, e: Event) {
    e.Take? && CanTake(x, e.i) && x.h.outbox[e.i].channel == channel && channel !in Taking(x, e.i).busy
  }

  function NextView(x: World, cfg: H.Config, channel: string, e: Event, view: View): View {
    if Finishes(x, channel, e) then
      View(view.events + [O.Send(JobOf(x.h.outbox[x.busy[channel]], e.answers, view.during))], [])
    else if AnswersAtOnce(x, channel, e) then
      View(view.events + [O.Send(JobOf(x.h.outbox[e.i], [], []))], [])
    else if channel in x.busy then View(view.events, view.during + StepOps(x, cfg, e))
    else View(view.events + Others(StepOps(x, cfg, e)), [])
  }

  function ViewOf(cfg: H.Config, events: seq<Event>, channel: string): View {
    if events == [] then View([], [])
    else NextView(Run(cfg, Init(events)), cfg, channel, Last(events), ViewOf(cfg, Init(events), channel))
  }

  /** The provider's calls on one channel. */
  function SentOn(sends: seq<SendLog>, channel: string): seq<O.Attempt> {
    if sends == [] then []
    else SentOn(Init(sends), channel) + (if Last(sends).channel == channel then Last(sends).attempts else [])
  }

  /** The view explains the worker: its calls are those of the worker model, the store is that of the
      worker model after what others did since, and if it is busy then with a message the worker
      model sends. */
  ghost predicate Explains(x: World, channel: string, view: View) {
    var w := O.Run(channel, view.events);
    && w.sent == SentOn(x.sends, channel)
    && x.h.store == ApplyAll(w.store, view.during)
    && (channel !in x.busy ==> view.during == [])
    && (channel in x.busy ==>
          x.busy[channel] < |x.h.outbox| && O.Sends(w, channel, JobOf(x.h.outbox[x.busy[channel]], [], [])))
  }

  lemma {:induction false} ApplyAppend(s: StoreState, a: seq<StoreOp>, b: seq<StoreOp>)
    ensures ApplyAll(s, a + b) == ApplyAll(ApplyAll(s, a), b)
    decreases |b|
  {
    if b == [] {
      assert a + b == a;
    } else {
      ApplyAppend(s, a, Init(b));
      EndsOf(b);
      Assoc(a, Init(b), [Last(b)]);
      InitSnoc(a + Init(b), Last(b));
    }
  }

  lemma WorkerOneMore(channel: string, events: seq<O.Event>, e: O.Event)
    ensures O.Run(channel, events + [e]) == O.Step(O.Run(channel, events), channel, e)
  {
    InitSnoc(events, e);
  }

  lemma {:induction false} WorkerOthers(channel: string, events: seq<O.Event>, ops: seq<StoreOp>)
    ensures var w := O.Run(channel, events);
      O.Run(channel, events + Others(ops)) == w.(store := ApplyAll(w.store, ops))
    decreases |ops|
  {
    if ops == [] {
      assert events + Others(ops) == events;
    } else {
      WorkerOthers(channel, events, Init(ops));
      WorkerOneMore(channel, events + Others(Init(ops)), O.Other(Last(ops)));
      assert events + Others(ops) == (events + Others(Init(ops))) + [O.Other(Last(ops))];
    }
  }

  /** The worker finishes: one sent job of the worker model, with everything that came in between. */
  lemma FinishExplains(x: World, cfg: H.Config, channel: string, e: Event, view: View)
    requires Explains(x, channel, view) && Finishes(x, channel, e)
    ensures Explains(Step(x, cfg, e), channel, NextView(x, cfg, channel, e, view))
  {
    var job := JobOf(x.h.outbox[x.busy[channel]], e.answers, view.during);
    var plain := JobOf(x.h.outbox[x.busy[channel]], e.answers, []);
    SameAnswers(job, plain);
    WorkerOneMore(channel, view.events, O.Send(job));
    var x' := Step(x, cfg, e);
    InitSnoc(x.sends, Last(x'.sends));
  }

  lemma SameAnswers(a: O.Job, b: O.Job)
    requires a.out == b.out && a.answers == b.answers
    ensures O.AttemptCount(a) == O.AttemptCount(b) && O.FinalAnswer(a) == O.FinalAnswer(b)
    ensures O.AttemptsOf(a, O.AttemptCount(a)) == O.AttemptsOf(b, O.AttemptCount(b))
  {
    assert forall i: nat :: O.AnswerTo(a, i) == O.AnswerTo(b, i);
  }

  /** The worker replays or denies: one job of the worker model that changes nothing. */
  lemma AnswerExplains(x: World, cfg: H.Config, channel: string, e: Event, view: View)
    requires Explains(x, channel, view) && AnswersAtOnce(x, channel, e)
    ensures Explains(Step(x, cfg, e), channel, NextView(x, cfg, channel, e, view))
  {
    WorkerOneMore(channel, view.events, O.Send(JobOf(x.h.outbox[e.i], [], [])));
  }

  /** The worker becomes busy. */
  lemma BusyExplains(x: World, cfg: H.Config, channel: string, i: nat, view: View)
    requires Explains(x, channel, view) && CanTake(x, i) && x.h.outbox[i].channel == channel
    requires channel in Taking(x, i).busy
    ensures Explains(Step(x, cfg, Take(i)), channel, NextView(x, cfg, channel, Take(i), view))
  {
    assert view.events + Others([]) == view.events;
  }

  /** A step of another task. */
  lemma OtherExplains(x: World, cfg: H.Config, channel: string, e: Event, view: View)
    requires Orderly(x) && Explains(x, channel, view)
    requires !Finishes(x, channel, e) && !(e.Take? && CanTake(x, e.i) && x.h.outbox[e.i].channel == channel)
    ensures Explains(Step(x, cfg, e), channel, NextView(x, cfg, channel, e, view))
  {
    var w, ops := O.Run(channel, view.events), StepOps(x, cfg, e);
    StepOpsApply(x, cfg, e);
    OutboxGrows(x, cfg, e);
    OthersSend(x, cfg, channel, e);
    if channel in x.busy {
      ApplyAppend(w.store, view.during, ops);
    } else {
      WorkerOthers(channel, view.events, ops);
      ApplyNothing(O.Run(channel, view.events + Others(ops)).store);
    }
  }

  lemma ApplyNothing(s: StoreState)
    ensures ApplyAll(s, []) == s
  {
  }

  /** The worker of the channel stands where it stood, and made no calls. */
  ghost predicate Undisturbed(x: World, x': World, channel: string) {
    && SentOn(x'.sends, channel) == SentOn(x.sends, channel)
    && (channel in x'.busy <==> channel in x.busy) && (channel in x.busy ==> x'.busy[channel] == x.busy[channel])
  }

  lemma OtherFinishes(x: World, channel: string, other: string, answers: seq<O.Answer>)
    requires other != channel && other in x.busy && x.busy[other] < |x.h.outbox|
    requires Orderly(x)
    ensures Undisturbed(x, Finishing(x, other, answers), channel)
  {
    var x' := Finishing(x, other, answers);
    InitSnoc(x.sends, Last(x'.sends));
    assert x'.sends == x.sends + [Last(x'.sends)];
    assert Last(x'.sends).channel == other;
    assert SentOn(x.sends, channel) + [] == SentOn(x.sends, channel);
  }

  lemma OtherTakes(x: World, channel: string, i: nat)
    requires CanTake(x, i) && x.h.outbox[i].channel != channel
    ensures Undisturbed(x, Taking(x, i), channel)
  {
  }

  lemma OthersSend(x: World, cfg: H.Config, channel: string, e: Event)
    requires Orderly(x)
    requires !Finishes(x, channel, e) && !(e.Take? && CanTake(x, e.i) && x.h.outbox[e.i].channel == channel)
    ensures Undisturbed(x, Step(x, cfg, e), channel)
  {
    match e
    case Task(_) =>
    case Take(i) => if CanTake(x, i) { OtherTakes(x, channel, i); }
    case Finish(other, answers) =>
      if other in x.busy && x.busy[other] < |x.h.outbox| { OtherFinishes(x, channel, other, answers); }
  }

  /** The worker half of every combined run is a run of the worker model: whatever the other tasks
      and the other workers do meanwhile is interference that the worker model allows for. */
  lemma {:induction false} WorkerSimulates(cfg: H.Config, events: seq<Event>, channel: string)
    ensures Explains(Run(cfg, events), channel, ViewOf(cfg, events, channel))
    decreases |events|
  {
    if events != [] {
      var x, e, view := Run(cfg, Init(events)), Last(events), ViewOf(cfg, Init(events), channel);
      WorkerSimulates(cfg, Init(events), channel);
      RunIsOrderly(cfg, Init(events));
      if Finishes(x, channel, e) {
        FinishExplains(x, cfg, channel, e, view);
      } else if AnswersAtOnce(x, channel, e) {
        AnswerExplains(x, cfg, channel, e, view);
      } else if e.Take? && CanTake(x, e.i) && x.h.outbox[e.i].channel == channel {
        BusyExplains(x, cfg, channel, e.i, view);
      } else {
        OtherExplains(x, cfg, channel, e, view);
      }
    }
  }

  // ----- Other tasks never write under a worker's keys ---------------------------------------------

  /** The harness operation concerns channels of the given set only. */
  predicate Among(events: seq<Event>, channels: set<string>) {
    forall e <- events :: e.Task? ==> H.On(e.op, channels)
  }

  /** Cached threads and queued messages are on channels of the set. */
  ghost predicate Within(s: H.State, channels: set<string>) {
    && (forall id :: id in s.cache ==> s.cache[id].channel in channels)
    && (forall m <- s.outbox :: m.channel in channels)
  }

  lemma StepStaysWithin(x: World, cfg: H.Config, e: Event, channels: set<string>)
    requires Within(x.h, channels) && (e.Task? ==> H.On(e.op, channels))
    ensures Within(Step(x, cfg, e).h, channels)
  {
  }

  lemma {:induction false} RunStaysWithin(cfg: H.Config, events: seq<Event>, channels: set<string>)
    requires Among(events, channels)
    ensures Within(Run(cfg, events).h, channels)
    decreases |events|
  {
    if events != [] {
      EndsOf(events);
      RunStaysWithin(cfg, Init(events), channels);
      StepStaysWithin(Run(cfg, Init(events)), cfg, Last(events), channels);
    }
  }

  predicate AllKeyless(ops: seq<StoreOp>, thread: string) {
    forall op <- ops :: O.Keyless(op, thread)
  }

  /** A step that is not the worker of the channel finishing writes no keyed record on a thread of the
      channel: inbound records have no key, and the other workers write on other threads. */
  lemma StepIsKeyless(x: World, cfg: H.Config, e: Event, channel: string, peer: string, channels: set<string>)
    requires AllSeparated(channels) && channel in channels
    requires H.Filed(x.h) && Within(x.h, channels) && Orderly(x)
    requires !Finishes(x, channel, e)
    ensures AllKeyless(StepOps(x, cfg, e), ForPeer(channel, peer))
  {
    if e.Finish? && HarnessOps(x, e) != [] {
      var m := x.h.outbox[x.busy[e.channel]];
      assert m.channel == e.channel && m.channel in channels && H.Addressed(m);
      if m.threadId == ForPeer(channel, peer) {
        ForPeerInjective(m.channel, m.peer, channel, peer);
      }
    }
  }

  ghost predicate KeylessView(view: View, thread: string) {
    (forall e <- view.events :: O.KeylessEvent(e, thread)) && AllKeyless(view.during, thread)
  }

  lemma NextViewKeyless(x: World, cfg: H.Config, channel: string, e: Event, view: View, thread: string)
    requires KeylessView(view, thread) && (Finishes(x, channel, e) || AllKeyless(StepOps(x, cfg, e), thread))
    ensures KeylessView(NextView(x, cfg, channel, e, view), thread)
  {
  }

  /** The interference of the worker model, met by the combined system: on a thread of its channel no
      other task ever writes a keyed record. */
  lemma {:induction false} InterferenceIsKeyless(cfg: H.Config, events: seq<Event>, channel: string, peer: string, channels: set<string>)
    requires AllSeparated(channels) && channel in channels && Among(events, channels)
    ensures KeylessView(ViewOf(cfg, events, channel), ForPeer(channel, peer))
    decreases |events|
  {
    if events != [] {
      var x, e := Run(cfg, Init(events)), Last(events);
      EndsOf(events);
      InterferenceIsKeyless(cfg, Init(events), channel, peer, channels);
      HarnessSimulates(cfg, Init(events));
      H.QueuedWhereTheyBelong(cfg, HarnessRun(cfg, Init(events)));
      RunStaysWithin(cfg, Init(events), channels);
      RunIsOrderly(cfg, Init(events));
      if !Finishes(x, channel, e) {
        StepIsKeyless(x, cfg, e, channel, peer, channels);
      }
      NextViewKeyless(x, cfg, channel, e, ViewOf(cfg, Init(events), channel), ForPeer(channel, peer));
    }
  }

  // ----- The log of a thread ---------------------------------------------------------------------------

  /** What the provider acknowledged on a thread of the channel since its messages were last dropped. */
  function LiveAcks(cfg: H.Config, events: seq<Event>, channel: string, thread: string): seq<O.Delivery> {
    var view := ViewOf(cfg, events, channel);
    if O.DropsIn(O.Run(channel, view.events).store, view.during, thread) > 0 then []
    else O.LiveAcks(channel, view.events, thread)
  }

  /** In every interleaving of harness operations and workers, deletions included: the keyed records
      of a thread are exactly what the provider acknowledged on it since its messages were last
      dropped, one per key and in the order of acknowledgement. */
  lemma ThreadLogIsLiveAcks(cfg: H.Config, events: seq<Event>, channel: string, peer: string, channels: set<string>)
    requires AllSeparated(channels) && channel in channels && Among(events, channels)
    ensures O.Holds(Run(cfg, events).h.store, ForPeer(channel, peer), LiveAcks(cfg, events, channel, ForPeer(channel, peer)))
  {
    var thread, view := ForPeer(channel, peer), ViewOf(cfg, events, channel);
    var w := O.Run(channel, view.events);
    InterferenceIsKeyless(cfg, events, channel, peer, channels);
    WorkerSimulates(cfg, events, channel);
    O.LogIsLiveAcks(channel, view.events, thread);
    if O.DropsIn(w.store, view.during, thread) > 0 {
      O.DroppedKeyless(w.store, view.during, thread);
    } else {
      O.KeylessOpsKeep(w.store, view.during, thread);
    }
  }

  /** In every interleaving a (thread, key) was acknowledged exactly as often as its record was
      dropped before the worker's current message, plus once if it is on record there; in particular
      at most once while nothing is dropped. */
  lemma AckedExactly(cfg: H.Config, events: seq<Event>, channel: string, peer: string, key: string, channels: set<string>)
    requires AllSeparated(channels) && channel in channels && Among(events, channels)
    ensures var thread, view := ForPeer(channel, peer), ViewOf(cfg, events, channel);
      O.Acks(SentOn(Run(cfg, events).sends, channel), thread, key)
        == O.Losses(channel, view.events, thread, key)
           + O.Bit(O.Recorded(O.Run(channel, view.events).store, thread, key).Some?)
  {
    var thread, view := ForPeer(channel, peer), ViewOf(cfg, events, channel);
    InterferenceIsKeyless(cfg, events, channel, peer, channels);
    WorkerSimulates(cfg, events, channel);
    assert forall e <- view.events :: O.ForeignEvent(e, thread, key) by {
      forall e | e in view.events
        ensures O.ForeignEvent(e, thread, key)
      {
        assert O.KeylessEvent(e, thread);
      }
    }
    O.AckedExactly(channel, view.events, thread, key);
  }

  /** No operation that deletes the thread or its channel. */
  predicate Kept(events: seq<Event>, thread: string) {
    forall e <- events :: e.Task? ==> !e.op.DropChannel? && e.op != H.Close(thread)
  }

  lemma StepDropsNothing(x: World, cfg: H.Config, e: Event, thread: string)
    requires e.Task? ==> !e.op.DropChannel? && e.op != H.Close(thread)
    ensures forall op <- StepOps(x, cfg, e) :: !op.DeleteChannel? && op != StoreOp.DeleteThread(thread)
  {
  }

  predicate NoDrops(ops: seq<StoreOp>, thread: string) {
    forall op <- ops :: !op.DeleteChannel? && op != StoreOp.DeleteThread(thread)
  }

  ghost predicate NoDropsView(view: View, thread: string) {
    && NoDrops(view.during, thread)
    && forall e <- view.events :: if e.Send? then NoDrops(e.job.during, thread) else NoDrops([e.op], thread)
  }

  lemma {:induction false} NoDropsCount(s: StoreState, ops: seq<StoreOp>, thread: string)
    requires NoDrops(ops, thread)
    ensures O.DropsIn(s, ops, thread) == 0
    decreases |ops|
  {
    if ops != [] {
      EndsOf(ops);
      NoDropsCount(s, Init(ops), thread);
    }
  }

  lemma {:induction false} NoDropsEvents(channel: string, events: seq<O.Event>, thread: string)
    requires forall e <- events :: if e.Send? then NoDrops(e.job.during, thread) else NoDrops([e.op], thread)
    ensures O.Drops(channel, events, thread) == 0
    decreases |events|
  {
    if events != [] {
      EndsOf(events);
      NoDropsEvents(channel, Init(events), thread);
      var w, e := O.Run(channel, Init(events)), Last(events);
      if e.Send? {
        NoDropsCount(w.store, e.job.during, thread);
      } else {
        assert e.op in [e.op];
      }
    }
  }

  lemma NextViewNoDrops(x: World, cfg: H.Config, channel: string, e: Event, view: View, thread: string)
    requires NoDropsView(view, thread) && NoDrops(StepOps(x, cfg, e), thread)
    ensures NoDropsView(NextView(x, cfg, channel, e, view), thread)
  {
  }

  lemma {:induction false} KeptDropsNothing(cfg: H.Config, events: seq<Event>, channel: string, thread: string)
    requires Kept(events, thread)
    ensures NoDropsView(ViewOf(cfg, events, channel), thread)
    decreases |events|
  {
    if events != [] {
      var x := Run(cfg, Init(events));
      EndsOf(events);
      KeptDropsNothing(cfg, Init(events), channel, thread);
      StepDropsNothing(x, cfg, Last(events), thread);
      NextViewNoDrops(x, cfg, channel, Last(events), ViewOf(cfg, Init(events), channel), thread);
    }
  }

  /** While a thread is not deleted its keyed records are exactly the provider's acknowledgements on
      it, one per key and in the order of acknowledgement. */
  lemma ThreadLogIsAckList(cfg: H.Config, events: seq<Event>, channel: string, peer: string, channels: set<string>)
    requires AllSeparated(channels) && channel in channels && Among(events, channels)
    requires Kept(events, ForPeer(channel, peer))
    ensures var x := Run(cfg, events);
      O.Holds(x.h.store, ForPeer(channel, peer), O.AckList(SentOn(x.sends, channel), ForPeer(channel, peer)))
  {
    var thread, view := ForPeer(channel, peer), ViewOf(cfg, events, channel);
    ThreadLogIsLiveAcks(cfg, events, channel, peer, channels);
    KeptDropsNothing(cfg, events, channel, thread);
    NoDropsCount(O.Run(channel, view.events).store, view.during, thread);
    NoDropsEvents(channel, view.events, thread);
    O.UndroppedAcks(channel, view.events, thread);
    WorkerSimulates(cfg, events, channel);
  }

  // ----- One reply per message ----------------------------------------------------------------------------

  /** The queued message is a reply to the inbound (channel, provider message id). */
  predicate RepliesTo(m: H.Outgoing, key: (string, string)) {
    m.channel == key.0 && m.replyTo == Some(key.1)
  }

  function ReplyCount(outbox: seq<H.Outgoing>, key: (string, string)): nat {
    if outbox == [] then 0 else ReplyCount(Init(outbox), key) + H.Bit(RepliesTo(Last(outbox), key))
  }

  lemma ReplySnoc(outbox: seq<H.Outgoing>, m: H.Outgoing, key: (string, string))
    ensures ReplyCount(outbox + [m], key) == ReplyCount(outbox, key) + H.Bit(RepliesTo(m, key))
  {
    InitSnoc(outbox, m);
  }

  lemma TurnReplies(s: H.State, msg: H.InboundMessage, reply: Option<H.Draft>, key: (string, string))
    requires ForPeer(msg.channel, msg.peer) in s.cache
    requires ReplyCount(s.outbox, key) <= H.Count(H.TurnKeys(s.turns), key)
    ensures var s' := H.TakeTurn(s, msg, reply).0;
      ReplyCount(s'.outbox, key) <= H.Count(H.TurnKeys(s'.turns), key)
  {
    var s' := H.TakeTurn(s, msg, reply).0;
    assert H.TurnKeys(s'.turns) == H.TurnKeys(s.turns) + [H.KeyOf(msg)];
    InitSnoc(H.TurnKeys(s.turns), H.KeyOf(msg));
    if s'.outbox != s.outbox {
      ReplySnoc(s.outbox, Last(s'.outbox), key);
      assert s'.outbox == s.outbox + [Last(s'.outbox)];
    }
  }

  lemma StepReplies(s: H.State, cfg: H.Config, op: H.Op, key: (string, string))
    requires ReplyCount(s.outbox, key) <= H.Count(H.TurnKeys(s.turns), key)
    ensures var s' := H.Step(s, cfg, op);
      ReplyCount(s'.outbox, key) <= H.Count(H.TurnKeys(s'.turns), key)
  {
    match op
    case Ingest(msg, reply) =>
      if (msg.channel, msg.providerMsgId) !in s.store.seen && H.FindOrOpen(s, cfg, msg).Ok? {
        TurnReplies(H.FindOrOpen(s, cfg, msg).value, msg, reply, key);
      }
    case Send(id, draft) =>
      var s' := H.Sending(s, id, draft).0;
      if s'.outbox != s.outbox {
        ReplySnoc(s.outbox, Last(s'.outbox), key);
        assert s'.outbox == s.outbox + [Last(s'.outbox)];
      }
    case _ =>
  }

  /** No more replies are queued to a message than turns were taken for it. */
  lemma {:induction false} RepliesAreTurns(cfg: H.Config, ops: seq<H.Op>, key: (string, string))
    ensures ReplyCount(H.Run(cfg, ops).outbox, key) <= H.Count(H.TurnKeys(H.Run(cfg, ops).turns), key)
    decreases |ops|
  {
    if ops != [] {
      RepliesAreTurns(cfg, Init(ops), key);
      StepReplies(H.Run(cfg, Init(ops)), cfg, Last(ops), key);
    }
  }

  lemma {:induction false} TwoRepliesCount(outbox: seq<H.Outgoing>, key: (string, string), i: nat, j: nat)
    requires i < j < |outbox| && RepliesTo(outbox[i], key) && RepliesTo(outbox[j], key)
    ensures ReplyCount(outbox, key) >= 2
    decreases |outbox|
  {
    if j < |outbox| - 1 {
      TwoRepliesCount(Init(outbox), key, i, j);
    } else {
      OneReplyCount(Init(outbox), key, i);
    }
  }

  lemma {:induction false} OneReplyCount(outbox: seq<H.Outgoing>, key: (string, string), i: nat)
    requires i < |outbox| && RepliesTo(outbox[i], key)
    ensures ReplyCount(outbox, key) >= 1
    decreases |outbox|
  {
    if i < |outbox| - 1 {
      OneReplyCount(Init(outbox), key, i);
    }
  }

  /** Attempt `a` of send `k` is of a reply to the message, and the provider acknowledged it. */
  predicate AckedReply(x: World, key: (string, string), k: nat, a: nat) {
    && k < |x.sends| && a < |x.sends[k].attempts| && x.sends[k].attempts[a].answer.Acked?
    && x.sends[k].index < |x.h.outbox| && RepliesTo(x.h.outbox[x.sends[k].index], key)
  }

  /** Only the last attempt of a send is acknowledged. */
  lemma {:induction false} SendsAckLast(cfg: H.Config, events: seq<Event>)
    ensures forall s <- Run(cfg, events).sends :: forall a :: 0 <= a < |s.attempts| - 1 ==> s.attempts[a].answer.Refused?
    decreases |events|
  {
    if events != [] {
      var x, e := Run(cfg, Init(events)), Last(events);
      SendsAckLast(cfg, Init(events));
      if e.Finish? && e.channel in x.busy && x.busy[e.channel] < |x.h.outbox| {
        var job := JobOf(x.h.outbox[x.busy[e.channel]], e.answers, []);
        assert O.AllRefused(job, O.AttemptCount(job) - 1);
      }
    }
  }

  predicate NoChannelDeleted(events: seq<Event>) {
    forall e <- events :: e.Task? ==> !e.op.DropChannel?
  }

  lemma {:induction false} HarnessRunWithin(cfg: H.Config, events: seq<Event>, channels: set<string>)
    requires Among(events, channels) && NoChannelDeleted(events)
    ensures forall op <- HarnessRun(cfg, events) :: H.Within(op, channels)
    decreases |events|
  {
    if events != [] {
      EndsOf(events);
      HarnessRunWithin(cfg, Init(events), channels);
    }
  }

  /** Over every interleaving of harness operations and workers, whatever the providers answer and
      across closing and reopening threads: as long as no channel is deleted, each inbound (channel,
      provider message id) has at most one reply that the provider acknowledged. */
  lemma OneReplyPerMessage(cfg: H.Config, events: seq<Event>, channels: set<string>, key: (string, string))
    requires AllSeparated(channels) && Among(events, channels) && NoChannelDeleted(events)
    ensures var x := Run(cfg, events);
      forall k: nat, a: nat, l: nat, b: nat :: AckedReply(x, key, k, a) && AckedReply(x, key, l, b) ==> k == l && a == b
  {
    var x, ops := Run(cfg, events), HarnessRun(cfg, events);
    HarnessSimulates(cfg, events);
    HarnessRunWithin(cfg, events, channels);
    H.NothingDropped(cfg, ops, channels, key.0);
    H.TurnsPerLife(cfg, ops, channels, key);
    RepliesAreTurns(cfg, ops, key);
    forall i: nat, j: nat | i < j < |x.h.outbox|
      ensures !(RepliesTo(x.h.outbox[i], key) && RepliesTo(x.h.outbox[j], key))
    {
      if RepliesTo(x.h.outbox[i], key) && RepliesTo(x.h.outbox[j], key) {
        TwoRepliesCount(x.h.outbox, key, i, j);
      }
    }
    RunIsOrderly(cfg, events);
    SendsAckLast(cfg, events);
    forall k: nat, a: nat, l: nat, b: nat | AckedReply(x, key, k, a) && AckedReply(x, key, l, b)
      ensures k == l && a == b
    {
      assert x.sends[k] in x.sends && x.sends[l] in x.sends;
      assert x.sends[k].index == x.sends[l].index;
    }
  }

  // ----- What the callers are told ----------------------------------------------------------------------------

  /** The send ended in an acknowledgement of the key on the thread, as `id`. */
  predicate Acknowledges(s: SendLog, thread: string, key: string, id: string) {
    && s.attempts != [] && Last(s.attempts).answer == O.Acked(id)
    && Last(s.attempts).out.threadId == thread && Last(s.attempts).out.key == key
  }

  /** The provider acknowledged a message with this key on this thread, as `id`; it was message `i`. */
  ghost predicate AckedAs(x: World, thread: string, key: string, id: string, i: nat) {
    exists k :: 0 <= k < |x.sends| && x.sends[k].index == i && Acknowledges(x.sends[k], thread, key, id)
  }

  ghost predicate RecordGenuine(x: World, t: string, r: Record) {
    r.key.Some? ==> r.providerMsgId.Some? && exists i :: AckedAs(x, t, r.key.value, r.providerMsgId.value, i)
  }

  /** Keyed records come from acknowledgements. */
  ghost predicate RecordsGenuine(x: World) {
    forall t, r :: r in MessagesOf(x.h.store, t) ==> RecordGenuine(x, t, r)
  }

  ghost predicate ResultGenuine(x: World, i: nat)
    requires i in x.results
  {
    && i < |x.h.outbox|
    && (x.results[i].Ok? ==> exists j :: AckedAs(x, x.h.outbox[i].threadId, x.h.outbox[i].key, x.results[i].value, j))
  }

  /** So do the successes that callers are told of. */
  ghost predicate ResultsGenuine(x: World) {
    forall i :: i in x.results ==> ResultGenuine(x, i)
  }

  lemma AckedAsStays(x: World, cfg: H.Config, e: Event, thread: string, key: string, id: string, i: nat)
    requires AckedAs(x, thread, key, id, i)
    ensures AckedAs(Step(x, cfg, e), thread, key, id, i)
  {
    var k :| 0 <= k < |x.sends| && x.sends[k].index == i && Acknowledges(x.sends[k], thread, key, id);
    assert Step(x, cfg, e).sends[k] == x.sends[k];
  }

  lemma RecordStaysGenuine(x: World, cfg: H.Config, e: Event, t: string, r: Record)
    requires RecordGenuine(x, t, r)
    ensures RecordGenuine(Step(x, cfg, e), t, r)
  {
    if r.key.Some? {
      var i :| AckedAs(x, t, r.key.value, r.providerMsgId.value, i);
      AckedAsStays(x, cfg, e, t, r.key.value, r.providerMsgId.value, i);
    }
  }

  /** Where a record of a thread comes from. */
  lemma OneRecordSource(s: StoreState, op: StoreOp, t: string, r: Record)
    requires r in MessagesOf(Apply(s, op), t)
    ensures r in MessagesOf(s, t) || (op == Append(r) && r.threadId == t)
  {
    if op.Append? && op.rec.threadId == t {
      assert MessagesOf(Apply(s, op), t) == MessagesOf(s, t) + [op.rec];
    }
  }

  lemma {:induction false} RecordSource(s: StoreState, ops: seq<StoreOp>, t: string, r: Record)
    requires r in MessagesOf(ApplyAll(s, ops), t)
    ensures r in MessagesOf(s, t) || (Append(r) in ops && r.threadId == t)
    decreases |ops|
  {
    if ops != [] {
      EndsOf(ops);
      OneRecordSource(ApplyAll(s, Init(ops)), Last(ops), t, r);
      if r in MessagesOf(ApplyAll(s, Init(ops)), t) {
        RecordSource(s, Init(ops), t, r);
      }
    }
  }

  lemma {:induction false} LookupFinds(recs: seq<Record>, key: string)
    requires Lookup(recs, key).Some?
    ensures exists r :: r in recs && r.key == Some(key) && r.providerMsgId == Lookup(recs, key)
    decreases |recs|
  {
    if recs[0].key == Some(key) {
      assert recs[0] in recs;
    } else {
      LookupFinds(recs[1..], key);
      var r :| r in recs[1..] && r.key == Some(key) && r.providerMsgId == Lookup(recs[1..], key);
      assert r in recs;
    }
  }

  /** The acknowledgement that a finishing worker records. */
  lemma FinishAcks(x: World, cfg: H.Config, e: Event, id: string)
    requires e.Finish? && e.channel in x.busy && x.busy[e.channel] < |x.h.outbox|
    requires O.FinalAnswer(JobOf(x.h.outbox[x.busy[e.channel]], e.answers, [])) == O.Acked(id)
    ensures var i := x.busy[e.channel];
      AckedAs(Step(x, cfg, e), x.h.outbox[i].threadId, x.h.outbox[i].key, id, i)
  {
    var x' := Step(x, cfg, e);
    var job := JobOf(x.h.outbox[x.busy[e.channel]], e.answers, []);
    var last := x'.sends[|x.sends|];
    assert last.attempts == O.AttemptsOf(job, O.AttemptCount(job));
    assert Last(last.attempts) == O.Attempt(job.out, O.FinalAnswer(job));
  }

  lemma RecordsStayGenuine(x: World, cfg: H.Config, e: Event)
    requires RecordsGenuine(x)
    ensures RecordsGenuine(Step(x, cfg, e))
  {
    var x', ops := Step(x, cfg, e), StepOps(x, cfg, e);
    StepOpsApply(x, cfg, e);
    forall t, r | r in MessagesOf(x'.h.store, t)
      ensures RecordGenuine(x', t, r)
    {
      RecordSource(x.h.store, ops, t, r);
      if r in MessagesOf(x.h.store, t) {
        RecordStaysGenuine(x, cfg, e, t, r);
      } else if e.Finish? {
        FinishAcks(x, cfg, e, r.providerMsgId.value);
      }
    }
  }

  lemma ResultStaysGenuine(x: World, cfg: H.Config, e: Event, i: nat)
    requires i in x.results && ResultGenuine(x, i)
    requires i in Step(x, cfg, e).results && Step(x, cfg, e).results[i] == x.results[i]
    ensures ResultGenuine(Step(x, cfg, e), i)
  {
    OutboxGrows(x, cfg, e);
    assert Step(x, cfg, e).h.outbox[i] == x.h.outbox[i];
    if x.results[i].Ok? {
      var j :| AckedAs(x, x.h.outbox[i].threadId, x.h.outbox[i].key, x.results[i].value, j);
      AckedAsStays(x, cfg, e, x.h.outbox[i].threadId, x.h.outbox[i].key, x.results[i].value, j);
    }
  }

  lemma TakeIsGenuine(x: World, cfg: H.Config, i: nat)
    requires RecordsGenuine(x) && CanTake(x, i) && i in Taking(x, i).results && i !in x.results
    ensures ResultGenuine(Step(x, cfg, Take(i)), i)
  {
    var m, x' := x.h.outbox[i], Step(x, cfg, Take(i));
    if x'.results[i].Ok? {
      LookupFinds(MessagesOf(x.h.store, m.threadId), m.key);
      var r :| r in MessagesOf(x.h.store, m.threadId) && r.key == Some(m.key)
        && r.providerMsgId == Lookup(MessagesOf(x.h.store, m.threadId), m.key);
      assert RecordGenuine(x, m.threadId, r);
      RecordStaysGenuine(x, cfg, Take(i), m.threadId, r);
    }
  }

  lemma FinishIsGenuine(x: World, cfg: H.Config, e: Event)
    requires e.Finish? && e.channel in x.busy && x.busy[e.channel] < |x.h.outbox|
    ensures x.busy[e.channel] in Step(x, cfg, e).results && ResultGenuine(Step(x, cfg, e), x.busy[e.channel])
  {
    var answer := O.FinalAnswer(JobOf(x.h.outbox[x.busy[e.channel]], e.answers, []));
    if answer.Acked? {
      FinishAcks(x, cfg, e, answer.msgId);
    }
  }

  /** A message has a result only after a worker took it and is done with it. */
  ghost predicate ResultsOfTaken(x: World) {
    forall i :: i in x.results ==> i in x.taken && forall c :: c in x.busy ==> x.busy[c] != i
  }

  lemma ResultsStayGenuine(x: World, cfg: H.Config, e: Event)
    requires Orderly(x) && RecordsGenuine(x) && ResultsGenuine(x) && ResultsOfTaken(x)
    ensures ResultsGenuine(Step(x, cfg, e))
  {
    var x' := Step(x, cfg, e);
    forall i | i in x'.results
      ensures ResultGenuine(x', i)
    {
      if i in x.results {
        ResultStaysGenuine(x, cfg, e, i);
      } else if e.Take? {
        TakeIsGenuine(x, cfg, i);
      } else {
        FinishIsGenuine(x, cfg, e);
      }
    }
  }

  lemma TakeGivesResult(x: World, i: nat)
    requires Orderly(x) && ResultsOfTaken(x) && CanTake(x, i)
    ensures ResultsOfTaken(Taking(x, i))
  {
  }

  lemma FinishGivesResult(x: World, channel: string, answers: seq<O.Answer>)
    requires Orderly(x) && ResultsOfTaken(x) && channel in x.busy
    ensures ResultsOfTaken(Finishing(x, channel, answers))
  {
    forall c | c in x.busy && c != channel
      ensures x.busy[c] != x.busy[channel]
    {
      assert x.h.outbox[x.busy[c]].channel == c;
    }
  }

  lemma {:induction false} ResultsComeLast(cfg: H.Config, events: seq<Event>)
    ensures ResultsOfTaken(Run(cfg, events))
    decreases |events|
  {
    if events != [] {
      var x := Run(cfg, Init(events));
      ResultsComeLast(cfg, Init(events));
      RunIsOrderly(cfg, Init(events));
      match Last(events)
      case Task(_) =>
      case Take(i) => if CanTake(x, i) { TakeGivesResult(x, i); }
      case Finish(channel, answers) => if channel in x.busy { FinishGivesResult(x, channel, answers); }
    }
  }

  /** Over every interleaving: a caller is told of a success only if the provider acknowledged a
      message with its key on its thread, with the id the caller is given; and every keyed record
      comes from such an acknowledgement. */
  lemma {:induction false} SuccessesAreGenuine(cfg: H.Config, events: seq<Event>)
    ensures RecordsGenuine(Run(cfg, events)) && ResultsGenuine(Run(cfg, events))
    decreases |events|
  {
    if events != [] {
      var x, e := Run(cfg, Init(events)), Last(events);
      SuccessesAreGenuine(cfg, Init(events));
      RunIsOrderly(cfg, Init(events));
      ResultsComeLast(cfg, Init(events));
      RecordsStayGenuine(x, cfg, e);
      ResultsStayGenuine(x, cfg, e);
    }
  }

  /** Each finished send is of its own queued message. */
  lemma {:induction false} SendsAreOfTheirMessages(cfg: H.Config, events: seq<Event>)
    ensures var x := Run(cfg, events);
      forall s <- x.sends :: s.index < |x.h.outbox| && forall a <- s.attempts :: a.out == OutOf(x.h.outbox[s.index])
    decreases |events|
  {
    if events != [] {
      var x, e := Run(cfg, Init(events)), Last(events);
      SendsAreOfTheirMessages(cfg, Init(events));
      OutboxGrows(x, cfg, e);
    }
  }

  /** What the caller is told once its message was sent. */
  function Told(s: SendLog): Result<string, O.SendError>
    requires s.attempts != []
  {
    match Last(s.attempts).answer
    case Acked(id) => Ok(id)
    case Refused(reason) => Err(O.ProviderFailed(reason))
  }

  ghost predicate SendsAreTold(x: World) {
    forall k :: 0 <= k < |x.sends| ==>
      x.sends[k].attempts != [] && x.sends[k].index in x.results && x.results[x.sends[k].index] == Told(x.sends[k])
  }

  lemma FinishIsTold(x: World, channel: string, answers: seq<O.Answer>)
    requires Orderly(x) && SendsAreTold(x) && channel in x.busy
    ensures SendsAreTold(Finishing(x, channel, answers))
  {
    var x' := Finishing(x, channel, answers);
    var job := JobOf(x.h.outbox[x.busy[channel]], answers, []);
    assert Last(O.AttemptsOf(job, O.AttemptCount(job))) == O.Attempt(job.out, O.FinalAnswer(job));
    forall k | 0 <= k < |x'.sends|
      ensures x'.sends[k].attempts != [] && x'.sends[k].index in x'.results
      ensures x'.results[x'.sends[k].index] == Told(x'.sends[k])
    {
      if k < |x.sends| {
        assert x'.sends[k] == x.sends[k];
      }
    }
  }

  lemma {:induction false} CallersAreTold(cfg: H.Config, events: seq<Event>)
    ensures SendsAreTold(Run(cfg, events))
    decreases |events|
  {
    if events != [] {
      var x, e := Run(cfg, Init(events)), Last(events);
      CallersAreTold(cfg, Init(events));
      RunIsOrderly(cfg, Init(events));
      ResultsComeLast(cfg, Init(events));
      match e
      case Task(_) =>
      case Take(i) => if CanTake(x, i) { TakeIsTold(x, i); }
      case Finish(channel, answers) => if channel in x.busy { FinishIsTold(x, channel, answers); }
    }
  }

  lemma TakeIsTold(x: World, i: nat)
    requires Orderly(x) && SendsAreTold(x) && CanTake(x, i)
    ensures SendsAreTold(Taking(x, i))
  {
  }

  /** The keys made up for queued messages are fresh. */
  predicate FreshKeys(outbox: seq<H.Outgoing>) {
    forall k, l :: 0 <= k < l < |outbox| ==> outbox[k].key != outbox[l].key
  }

  lemma OwnAck(x: World, i: nat, id: string, j: nat)
    requires i < |x.h.outbox| && FreshKeys(x.h.outbox)
    requires forall s <- x.sends :: s.index < |x.h.outbox| && forall a <- s.attempts :: a.out == OutOf(x.h.outbox[s.index])
    requires AckedAs(x, x.h.outbox[i].threadId, x.h.outbox[i].key, id, j)
    ensures i == j
  {
    var k :| 0 <= k < |x.sends| && x.sends[k].index == j
      && Acknowledges(x.sends[k], x.h.outbox[i].threadId, x.h.outbox[i].key, id);
    assert x.sends[k] in x.sends && Last(x.sends[k].attempts) in x.sends[k].attempts;
    assert x.h.outbox[j].key == x.h.outbox[i].key;
  }

  /** With fresh keys the caller of a queued message is told of a success, with an id, if and only if
      the provider acknowledged that very message with that id. */
  lemma ToldIffAcked(cfg: H.Config, events: seq<Event>, i: nat, id: string)
    requires i < |Run(cfg, events).h.outbox| && FreshKeys(Run(cfg, events).h.outbox)
    ensures var x := Run(cfg, events);
      (i in x.results && x.results[i] == Ok(id)) <==> AckedAs(x, x.h.outbox[i].threadId, x.h.outbox[i].key, id, i)
  {
    var x := Run(cfg, events);
    if i in x.results && x.results[i] == Ok(id) {
      SuccessesAreGenuine(cfg, events);
      SendsAreOfTheirMessages(cfg, events);
      assert ResultGenuine(x, i);
      var j: nat :| AckedAs(x, x.h.outbox[i].threadId, x.h.outbox[i].key, id, j);
      OwnAck(x, i, id, j);
    }
    if AckedAs(x, x.h.outbox[i].threadId, x.h.outbox[i].key, id, i) {
      CallersAreTold(cfg, events);
    }
  }

  // ----- What is attempted, and by whom it was drafted ----------------------------------------------

  /** The combined system before event `i`. */
  function At(cfg: H.Config, events: seq<Event>, i: nat): World
    requires i <= |events|
  {
    Run(cfg, events[..i])
  }

  lemma PrefixWorlds(cfg: H.Config, events: seq<Event>)
    requires events != []
    ensures At(cfg, events, |events| - 1) == Run(cfg, Init(events)) && events[|events| - 1] == Last(events)
    ensures forall i: nat :: i < |events| - 1 ==> At(cfg, events, i) == At(cfg, Init(events), i) && Init(events)[i] == events[i]
  {
    forall i: nat | i < |events| - 1
      ensures At(cfg, events, i) == At(cfg, Init(events), i)
    {
      assert Init(events)[..i] == events[..i];
    }
  }

  /** Event `i` is a harness operation that queues the message. */
  ghost predicate QueuedAt(cfg: H.Config, events: seq<Event>, i: nat, m: H.Outgoing) {
    i < |events| && events[i].Task? && R.Queues(At(cfg, events, i).h, cfg, events[i].op, m)
  }

  lemma {:induction false} QueuedByATask(cfg: H.Config, events: seq<Event>, k: nat) returns (i: nat)
    requires k < |Run(cfg, events).h.outbox|
    ensures QueuedAt(cfg, events, i, Run(cfg, events).h.outbox[k])
    decreases |events|
  {
    var x, e := Run(cfg, Init(events)), Last(events);
    PrefixWorlds(cfg, events);
    OutboxGrows(x, cfg, e);
    if k < |x.h.outbox| {
      i := QueuedByATask(cfg, Init(events), k);
    } else {
      i := |events| - 1;
      var queued := R.StepQueue(x.h, cfg, e.op);
    }
  }

  /** Every attempt, acknowledged or not, of every interleaving is of a message that some earlier harness
      operation queued, with its thread, content and key, on its channel: either what the target of an
      accepted inbound message replied to it, on the thread of the peer that sent it, or what an
      administrator sent. */
  lemma AttemptsAreDrafts(cfg: H.Config, events: seq<Event>, s: SendLog, a: O.Attempt) returns (i: nat, m: H.Outgoing)
    requires s in Run(cfg, events).sends && a in s.attempts
    ensures QueuedAt(cfg, events, i, m)
    ensures m.channel == s.channel && a.out == O.OutboundMessage(m.threadId, m.content, m.key)
  {
    var x := Run(cfg, events);
    RunIsOrderly(cfg, events);
    SendsAreOfTheirMessages(cfg, events);
    m := x.h.outbox[s.index];
    i := QueuedByATask(cfg, events, s.index);
  }

  /** Event `i` is a worker taking queued message `k`, which the spec of its channel, as stored then,
      permits, and whose key is not on record. */
  ghost predicate TakenAt(cfg: H.Config, events: seq<Event>, i: nat, k: nat) {
    && i < |events| && events[i] == Take(k)
    && var x := At(cfg, events, i);
       && k < |x.h.outbox| && O.Permitted(x.h.store, x.h.outbox[k].channel, OutOf(x.h.outbox[k]))
       && forall id :: !O.OnRecord(x.h.store, OutOf(x.h.outbox[k]), id)
  }

  lemma TakenEarlier(cfg: H.Config, events: seq<Event>, i: nat, k: nat)
    requires events != [] && TakenAt(cfg, Init(events), i, k)
    ensures WasTaken(cfg, events, k)
  {
    PrefixWorlds(cfg, events);
    assert TakenAt(cfg, events, i, k);
  }

  /** The workers are busy with, and have sent, only messages taken like that. */
  ghost predicate TakenFairly(cfg: H.Config, events: seq<Event>) {
    var x := Run(cfg, events);
    && (forall c :: c in x.busy ==> WasTaken(cfg, events, x.busy[c]))
    && (forall s <- x.sends :: WasTaken(cfg, events, s.index))
  }

  ghost predicate WasTaken(cfg: H.Config, events: seq<Event>, k: nat) {
    exists i :: TakenAt(cfg, events, i, k)
  }

  /** Where a busy worker's message and a finished send come from. */
  lemma StepSources(x: World, cfg: H.Config, e: Event)
    ensures var x' := Step(x, cfg, e);
      && (forall c :: c in x'.busy ==> (c in x.busy && x'.busy[c] == x.busy[c]) || TakesUp(x, e, x'.busy[c]))
      && (forall s <- x'.sends :: s in x.sends || exists c :: c in x.busy && x.busy[c] == s.index)
  {
  }

  predicate TakesUp(x: World, e: Event, k: nat) {
    e == Take(k) && CanTake(x, k) && x.h.outbox[k].channel in Taking(x, k).busy
  }

  lemma BusyIsTaken(cfg: H.Config, events: seq<Event>, k: nat)
    requires events != [] && TakesUp(Run(cfg, Init(events)), Last(events), k)
    ensures WasTaken(cfg, events, k)
  {
    var x := Run(cfg, Init(events));
    PrefixWorlds(cfg, events);
    O.RecordedIsOnRecord(x.h.store, OutOf(x.h.outbox[k]));
    O.CapabilityMeans(x.h.store, x.h.outbox[k].channel, OutOf(x.h.outbox[k]));
    assert TakenAt(cfg, events, |events| - 1, k);
  }

  /** Over every interleaving: whatever was attempted had all its leaves enabled by the spec that its
      channel had in the store when the worker took it, if there was one. */
  lemma {:induction false} SendsArePermitted(cfg: H.Config, events: seq<Event>)
    ensures TakenFairly(cfg, events)
    decreases |events|
  {
    if events != [] {
      var x, x', e := Run(cfg, Init(events)), Run(cfg, events), Last(events);
      SendsArePermitted(cfg, Init(events));
      StepSources(x, cfg, e);
      forall k | WasTaken(cfg, Init(events), k)
        ensures WasTaken(cfg, events, k)
      {
        var i :| TakenAt(cfg, Init(events), i, k);
        TakenEarlier(cfg, events, i, k);
      }
      forall k | TakesUp(x, e, k)
        ensures WasTaken(cfg, events, k)
      {
        BusyIsTaken(cfg, events, k);
      }
    }
  }

  // ----- Nothing is stuck --------------------------------------------------------------------------------

  /** Only workers step. */
  predicate ByWorkers(events: seq<Event>) {
    forall e <- events :: !e.Task?
  }

  function Untaken(x: World): set<nat> {
    set i: nat | i < |x.h.outbox| && i !in x.taken
  }

  /** The first queued message that is not taken, of those below `n`. */
  lemma {:induction false} FirstUntaken(x: World, n: nat) returns (i: nat)
    requires n < |x.h.outbox| && n !in x.taken
    ensures i <= n && i !in x.taken && forall j :: 0 <= j < i ==> j in x.taken
  {
    i := 0;
    while i < n && i in x.taken
      invariant i <= n && forall j :: 0 <= j < i ==> j in x.taken
    {
      i := i + 1;
    }
  }

  lemma RunOneMore(cfg: H.Config, events: seq<Event>, e: Event)
    ensures Run(cfg, events + [e]) == Step(Run(cfg, events), cfg, e)
  {
    InitSnoc(events, e);
  }

  /** A message that was taken has its result, or its worker is at it. */
  ghost predicate TakenAreAnswered(x: World) {
    forall i <- x.taken :: i in x.results || exists c :: c in x.busy && x.busy[c] == i
  }

  lemma StepAnswers(x: World, cfg: H.Config, e: Event)
    requires Orderly(x) && TakenAreAnswered(x)
    ensures TakenAreAnswered(Step(x, cfg, e))
  {
    var x' := Step(x, cfg, e);
    forall i | i in x'.taken
      ensures i in x'.results || exists c :: c in x'.busy && x'.busy[c] == i
    {
      if i in x.taken && i !in x.results {
        var c :| c in x.busy && x.busy[c] == i;
        assert i in x'.results || (c in x'.busy && x'.busy[c] == i);
      } else if i !in x.taken && i !in x'.results {
        assert x'.busy[x.h.outbox[i].channel] == i;
      }
    }
  }

  lemma {:induction false} RunAnswers(cfg: H.Config, events: seq<Event>)
    ensures TakenAreAnswered(Run(cfg, events))
    decreases |events|
  {
    if events != [] {
      RunAnswers(cfg, Init(events));
      RunIsOrderly(cfg, Init(events));
      StepAnswers(Run(cfg, Init(events)), cfg, Last(events));
    }
  }

  /** A worker that is not done: finishing it leaves one busy worker less. */
  lemma FinishOne(cfg: H.Config, events: seq<Event>, channel: string, answers: seq<O.Answer>) returns (more: seq<Event>)
    requires channel in Run(cfg, events).busy
    ensures ByWorkers(more) && var x, x' := Run(cfg, events), Run(cfg, events + more);
      x'.h.outbox == x.h.outbox && x'.taken == x.taken && x'.busy == x.busy - {channel}
  {
    RunIsOrderly(cfg, events);
    more := [Finish(channel, answers)];
    RunOneMore(cfg, events, more[0]);
  }

  lemma {:induction false} FinishAll(cfg: H.Config, events: seq<Event>) returns (more: seq<Event>)
    ensures ByWorkers(more) && var x, x' := Run(cfg, events), Run(cfg, events + more);
      x'.h.outbox == x.h.outbox && x'.taken == x.taken && x'.busy == map[]
    decreases |Run(cfg, events).busy|
  {
    more := [];
    assert events + [] == events;
    if Run(cfg, events).busy != map[] {
      var c :| c in Run(cfg, events).busy;
      var one := FinishOne(cfg, events, c, []);
      assert (Run(cfg, events).busy - {c}).Keys == Run(cfg, events).busy.Keys - {c};
      var rest := FinishAll(cfg, events + one);
      Assoc(events, one, rest);
      more := one + rest;
    }
  }

  lemma TakeOne(cfg: H.Config, events: seq<Event>) returns (more: seq<Event>)
    requires Run(cfg, events).busy == map[] && Untaken(Run(cfg, events)) != {}
    ensures ByWorkers(more) && var x, x' := Run(cfg, events), Run(cfg, events + more);
      x'.h.outbox == x.h.outbox && Untaken(x') < Untaken(x)
  {
    var x := Run(cfg, events);
    var n :| n in Untaken(x);
    var i := FirstUntaken(x, n);
    assert CanTake(x, i);
    more := [Take(i)];
    RunOneMore(cfg, events, more[0]);
    assert i in Untaken(x);
  }

  /** No queued message is stuck: from the state after any interleaving the workers alone, with any
      providers that answer, can go on so that every queued message has been taken and its caller has a
      result. */
  lemma {:induction false} NothingIsStuck(cfg: H.Config, events: seq<Event>) returns (more: seq<Event>)
    ensures ByWorkers(more) && var x, x' := Run(cfg, events), Run(cfg, events + more);
      x'.h.outbox == x.h.outbox && x'.busy == map[] && forall i: nat :: i < |x.h.outbox| ==> i in x'.results
    decreases Untaken(Run(cfg, events))
  {
    more := FinishAll(cfg, events);
    var x := Run(cfg, events + more);
    RunAnswers(cfg, events + more);
    if Untaken(x) != {} {
      var one := TakeOne(cfg, events + more);
      var rest := NothingIsStuck(cfg, events + more + one);
      Assoc(events + more, one, rest);
      Assoc(events, more, one + rest);
      more := more + (one + rest);
    } else {
      forall i: nat | i < |x.h.outbox|
        ensures i in x.results
      {
        assert i !in Untaken(x);
      }
    }
  }
}
