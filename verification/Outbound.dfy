/** The per-channel outbound worker: idempotent replay, bounded retry, persistence. The provider
    is an adversary that acknowledges or refuses each attempt, and other tasks may touch the
    store between jobs and while a job waits for its provider. */
module Outbound {
  import opened Prelude
  import opened MessageContent
  import opened ChannelStore

  datatype SendError = CapabilityDenied(denied: Denied) | ProviderFailed(reason: string)

  datatype Answer = Acked(msgId: string) | Refused(reason: string)

  datatype OutboundMessage = OutboundMessage(threadId: string, content: Content, key: string)

  /** One call of the provider's send, with what it answered. */
  datatype Attempt = Attempt(out: OutboundMessage, answer: Answer)

  /** A queued message, the provider's behaviour on it, and the store operations that other
      tasks perform while it is being sent. */
  datatype Job = Job(out: OutboundMessage, answers: seq<Answer>, during: seq<StoreOp>)

  datatype WorkerState = WorkerState(store: StoreState, sent: seq<Attempt>)

  const MAX_ATTEMPTS := 3
  const INITIAL_BACKOFF_MS := 100
  const MAX_BACKOFF_MS := 4000

  function AnswerTo(job: Job, attempt: nat): Answer {
    if attempt < |job.answers| then job.answers[attempt] else Refused("no answer")
  }

  /** The first `n` attempts of a job. */
  function AttemptsOf(job: Job, n: nat): seq<Attempt> {
    seq(n, i requires 0 <= i < n => Attempt(job.out, AnswerTo(job, i)))
  }

  /** Attempts `0..n` were all refused. */
  predicate AllRefused(job: Job, n: nat) {
    forall i :: 0 <= i < n ==> AnswerTo(job, i).Refused?
  }

  /** A job stops at its first acknowledgement; without one it uses up all attempts. */
  function AttemptCount(job: Job): (n: nat)
    ensures 1 <= n <= MAX_ATTEMPTS && AllRefused(job, n - 1)
    ensures AnswerTo(job, n - 1).Refused? ==> n == MAX_ATTEMPTS
  {
    if AnswerTo(job, 0).Acked? then 1 else if AnswerTo(job, 1).Acked? then 2 else MAX_ATTEMPTS
  }

  function FinalAnswer(job: Job): Answer {
    AnswerTo(job, AttemptCount(job) - 1)
  }

  function RecordOf(out: OutboundMessage, msgId: string): Record {
    Record(out.threadId, Outbound, out.content, Some(msgId), Some(out.key))
  }

  function Capability(s: StoreState, channel: string, out: OutboundMessage): Result<(), Denied> {
    if channel in s.channels then CheckCapabilities(out.content, s.channels[channel].capabilities) else Ok(())
  }

  function Process(w: WorkerState, channel: string, job: Job): (WorkerState, Result<string, SendError>) {
    var prev := Lookup(MessagesOf(w.store, job.out.threadId), job.out.key);
    if prev.Some? then (w, Ok(prev.value))
    else
      var caps := Capability(w.store, channel, job.out);
      if caps.Err? then (w, Err(CapabilityDenied(caps.error)))
      else
        var sent := w.sent + AttemptsOf(job, AttemptCount(job));
        var store := ApplyAll(w.store, job.during);
        match FinalAnswer(job)
        case Refused(reason) => (WorkerState(store, sent), Err(ProviderFailed(reason)))
        case Acked(id) => (WorkerState(Apply(store, Append(RecordOf(job.out, id))), sent), Ok(id))
  }

  // ----- The worker object ---------------------------------------------------

  class OutboundWorker {
    const channel: string
    const store: InMemoryChannelStore
    var sent: seq<Attempt>

    constructor (channel: string, store: InMemoryChannelStore)
      ensures this.channel == channel && this.store == store && sent == []
    {
      this.channel, this.store, sent := channel, store, [];
    }

    function State(): WorkerState
      reads this, store
    {
      WorkerState(store.State(), sent)
    }

    /** Sends one message. `sleeps` lists the back-off pauses in milliseconds. */
    method ProcessOne(job: Job) returns (r: Result<string, SendError>, sleeps: seq<nat>)
      modifies this, store
      ensures (State(), r) == Process(old(State()), channel, job)
      ensures sleeps <= [100, 200]
      ensures |sent| - |old(sent)| <= MAX_ATTEMPTS
      ensures |sent| > |old(sent)| ==> |sleeps| == |sent| - |old(sent)| - 1
    {
      sleeps := [];
      var prev := store.LookupOutboundByKey(job.out.threadId, job.out.key);
      if prev.Some? {
        return Ok(prev.value), sleeps;
      }
      var spec := store.GetChannel(channel);
      if spec.Some? {
        var caps := CheckCapabilities(job.out.content, spec.value.capabilities);
        if caps.Err? {
          return Err(CapabilityDenied(caps.error)), sleeps;
        }
      }
      var answer: Answer;
      answer, sleeps := SendWithRetry(job);
      Interfere(job.during);
      match answer {
        case Refused(reason) => r := Err(ProviderFailed(reason));
        case Acked(id) =>
          store.AppendMessage(RecordOf(job.out, id));
          r := Ok(id);
      }
    }

    /** The retry loop: stops at the first acknowledgement or after the last attempt. */
    method SendWithRetry(job: Job) returns (last: Answer, sleeps: seq<nat>)
      modifies `sent
      ensures sent == old(sent) + AttemptsOf(job, AttemptCount(job))
      ensures last == FinalAnswer(job)
      ensures sleeps <= [100, 200] && |sleeps| == AttemptCount(job) - 1
    {
      var delay := INITIAL_BACKOFF_MS;
      sleeps := [];
      last := Refused("retry exhausted with no error");
      for attempt := 0 to MAX_ATTEMPTS
        invariant sent == old(sent) + AttemptsOf(job, attempt)
        invariant AllRefused(job, attempt)
        invariant |sleeps| == attempt && sleeps <= [100, 200]
        invariant delay == if attempt == 0 then 100 else if attempt == 1 then 200 else 400
        invariant attempt < MAX_ATTEMPTS
      {
        last := AnswerTo(job, attempt);
        sent := sent + [Attempt(job.out, last)];
        assert AttemptsOf(job, attempt + 1) == AttemptsOf(job, attempt) + [Attempt(job.out, last)];
        if last.Acked? || attempt + 1 == MAX_ATTEMPTS {
          assert AttemptCount(job) == attempt + 1;
          return;
        }
        sleeps := sleeps + [delay];
        var next := delay * 2;
        delay := if next < MAX_BACKOFF_MS then next else MAX_BACKOFF_MS;
      }
    }

    /** Other tasks' store operations. */
    method Interfere(ops: seq<StoreOp>)
      modifies store
      ensures store.State() == ApplyAll(old(store.State()), ops)
    {
      for i := 0 to |ops|
        invariant store.State() == ApplyAll(old(store.State()), ops[..i])
      {
        assert Init(ops[..i + 1]) == ops[..i];
        match ops[i] {
          case UpsertChannel(spec) => store.UpsertChannel(spec);
          case DeleteChannel(c) => store.DeleteChannel(c);
          case UpsertThread(t) => store.UpsertThread(t);
          case DeleteThread(id) => store.DeleteThread(id);
          case Append(rec) => store.AppendMessage(rec);
        }
      }
      assert ops[..|ops|] == ops;
    }
  }

  // ----- What a job comes to, read off its parts ---------------------------------

  /** The id under which the key is on record: that of the earliest record with the key. */
  ghost predicate OnRecord(s: StoreState, out: OutboundMessage, id: string) {
    exists i :: FirstWithKey(MessagesOf(s, out.threadId), out.key, i)
      && MessagesOf(s, out.threadId)[i].providerMsgId == Some(id)
  }

  /** The channel's stored spec, if there is one, enables every leaf of the message. */
  predicate Permitted(s: StoreState, channel: string, out: OutboundMessage) {
    channel in s.channels ==> forall leaf <- Leaves(out.content) :: Enabled(leaf, s.channels[channel].capabilities)
  }

  /** The channel has a stored spec, and the error names the first leaf that it disables. */
  ghost predicate DeniedBy(s: StoreState, channel: string, out: OutboundMessage, e: Denied) {
    channel in s.channels && NamesFirst(e, Leaves(out.content), s.channels[channel].capabilities)
  }

  /** The message was sent `n` times, all but the last refused, up to an acknowledgement or the third
      refusal. Other tasks came in between; an acknowledged message is then on record as outbound, with
      its content, id and key, and the caller is told what the last answer was. */
  ghost predicate SentTimes(w: WorkerState, job: Job, w': WorkerState, r: Result<string, SendError>, n: nat) {
    && 1 <= n <= 3 && AllRefused(job, n - 1) && (n < 3 ==> AnswerTo(job, n - 1).Acked?)
    && |w'.sent| == |w.sent| + n && w'.sent[..|w.sent|] == w.sent
    && (forall k :: 0 <= k < n ==> w'.sent[|w.sent| + k] == Attempt(job.out, AnswerTo(job, k)))
    && match AnswerTo(job, n - 1)
       case Refused(reason) => r == Err(ProviderFailed(reason)) && w'.store == ApplyAll(w.store, job.during)
       case Acked(id) =>
         && r == Ok(id)
         && w'.store == Apply(ApplyAll(w.store, job.during),
                              Append(Record(job.out.threadId, Outbound, job.out.content, Some(id), Some(job.out.key))))
  }

  lemma {:induction false} LookupIsOnRecord(recs: seq<Record>, key: string) returns (i: int)
    ensures Lookup(recs, key).Some? ==> FirstWithKey(recs, key, i) && recs[i].providerMsgId == Lookup(recs, key)
    decreases |recs|
  {
    i := 0;
    if recs != [] && recs[0].key != Some(key) {
      var k := LookupIsOnRecord(recs[1..], key);
      i := k + 1;
      if Lookup(recs, key).Some? {
        assert recs[i] == recs[1..][k];
        assert forall j :: 1 <= j < i ==> recs[j] == recs[1..][j - 1];
      }
    }
  }

  lemma RecordedIsOnRecord(s: StoreState, out: OutboundMessage)
    ensures forall id :: OnRecord(s, out, id) <==> Lookup(MessagesOf(s, out.threadId), out.key) == Some(id)
  {
    var i := LookupIsOnRecord(MessagesOf(s, out.threadId), out.key);
    LookupIsFirst(MessagesOf(s, out.threadId), out.key);
  }

  lemma CapabilityMeans(s: StoreState, channel: string, out: OutboundMessage)
    ensures Capability(s, channel, out).Ok? <==> Permitted(s, channel, out)
    ensures Capability(s, channel, out).Err? ==> DeniedBy(s, channel, out, Capability(s, channel, out).error)
    ensures forall e :: DeniedBy(s, channel, out, e) ==> Capability(s, channel, out) == Err(e)
  {
    if channel in s.channels {
      var leaves, caps, r := Leaves(out.content), s.channels[channel].capabilities, Capability(s, channel, out);
      CheckDecidesLeaves(out.content, caps);
      forall e | DeniedBy(s, channel, out, e)
        ensures r == Err(e)
      {
        FirstIsDisabled(e, leaves, caps);
        FirstIsUnique(e, r.error, leaves, caps);
      }
      if r.Err? {
        FirstIsDisabled(r.error, leaves, caps);
      }
    }
  }

  /** What a job comes to. A key on record is answered with its id, and nothing happens. Otherwise the
      job is denied, with nothing sent and nothing changed, if and only if the stored spec of the channel
      disables a leaf of the message, and the error names the first one. Otherwise it is sent. */
  lemma ProcessMeans(w: WorkerState, channel: string, job: Job)
    ensures var (w', r) := Process(w, channel, job);
      && (forall id :: OnRecord(w.store, job.out, id) ==> w' == w && r == Ok(id))
      && ((forall id :: !OnRecord(w.store, job.out, id)) ==>
            && (forall e :: (w', r) == (w, Err(CapabilityDenied(e))) <==> DeniedBy(w.store, channel, job.out, e))
            && if Permitted(w.store, channel, job.out) then exists n :: SentTimes(w, job, w', r, n)
               else w' == w && r.Err? && r.error.CapabilityDenied?)
  {
    RecordedIsOnRecord(w.store, job.out);
    CapabilityMeans(w.store, channel, job.out);
    var (w', r) := Process(w, channel, job);
    var prev := Lookup(MessagesOf(w.store, job.out.threadId), job.out.key);
    if prev.Some? {
      assert OnRecord(w.store, job.out, prev.value);
    } else if Permitted(w.store, channel, job.out) {
      assert SentTimes(w, job, w', r, AttemptCount(job));
    }
  }

  // ----- Whole runs of the worker ----------------------------------------------

  datatype Event = Send(job: Job) | Other(op: StoreOp)

  function Step(w: WorkerState, channel: string, e: Event): WorkerState {
    match e
    case Send(job) => Process(w, channel, job).0
    case Other(op) => w.(store := Apply(w.store, op))
  }

  function Run(channel: string, events: seq<Event>): WorkerState {
    if events == [] then WorkerState(Empty, []) else Step(Run(channel, Init(events)), channel, Last(events))
  }

  /** A message under its idempotency key, with the id the provider gave it. */
  datatype Delivery = Delivery(key: string, content: Content, msgId: string)

  /** How often the provider acknowledged a (thread, key). */
  function Acks(sent: seq<Attempt>, thread: string, key: string): nat {
    if sent == [] then 0
    else Acks(Init(sent), thread, key)
         + (if Last(sent).out.threadId == thread && Last(sent).out.key == key && Last(sent).answer.Acked? then 1 else 0)
  }

  /** The acknowledgements on a thread, in order. */
  function AckList(sent: seq<Attempt>, thread: string): seq<Delivery> {
    if sent == [] then []
    else AckList(Init(sent), thread)
         + (if Last(sent).out.threadId == thread && Last(sent).answer.Acked?
            then [Delivery(Last(sent).out.key, Last(sent).out.content, Last(sent).answer.msgId)] else [])
  }

  /** The keyed records of a message list, in order. */
  function Keyed(recs: seq<Record>): seq<Delivery> {
    if recs == [] then []
    else Keyed(Init(recs))
         + (if Last(recs).key.Some? && Last(recs).providerMsgId.Some?
            then [Delivery(Last(recs).key.value, Last(recs).content, Last(recs).providerMsgId.value)] else [])
  }

  function DropsIn(s: StoreState, ops: seq<StoreOp>, thread: string): nat {
    if ops == [] then 0
    else DropsIn(s, Init(ops), thread) + Bit(DropsThread(ApplyAll(s, Init(ops)), Last(ops), thread))
  }

  /** The job is sent: not replayed from the log, and not denied. Only then do other tasks come in
      between. */
  predicate Sends(w: WorkerState, channel: string, job: Job) {
    Lookup(MessagesOf(w.store, job.out.threadId), job.out.key).None? && Capability(w.store, channel, job.out).Ok?
  }

  /** How often the thread's messages are dropped during an event. */
  function DropsAt(w: WorkerState, channel: string, e: Event, thread: string): nat {
    match e
    case Send(job) => if Sends(w, channel, job) then DropsIn(w.store, job.during, thread) else 0
    case Other(op) => Bit(DropsThread(w.store, op, thread))
  }

  function Drops(channel: string, events: seq<Event>, thread: string): nat {
    if events == [] then 0
    else Drops(channel, Init(events), thread) + DropsAt(Run(channel, Init(events)), channel, Last(events), thread)
  }

  /** The operation drops the thread's messages while the key is recorded among them. */
  predicate Loses(s: StoreState, op: StoreOp, thread: string, key: string) {
    DropsThread(s, op, thread) && Recorded(s, thread, key).Some?
  }

  function LossesIn(s: StoreState, ops: seq<StoreOp>, thread: string, key: string): nat {
    if ops == [] then 0
    else LossesIn(s, Init(ops), thread, key) + Bit(Loses(ApplyAll(s, Init(ops)), Last(ops), thread, key))
  }

  function LossesAt(w: WorkerState, channel: string, e: Event, thread: string, key: string): nat {
    match e
    case Send(job) => if Sends(w, channel, job) then LossesIn(w.store, job.during, thread, key) else 0
    case Other(op) => Bit(Loses(w.store, op, thread, key))
  }

  /** How often a recorded key was dropped. */
  function Losses(channel: string, events: seq<Event>, thread: string, key: string): nat {
    if events == [] then 0
    else Losses(channel, Init(events), thread, key)
         + LossesAt(Run(channel, Init(events)), channel, Last(events), thread, key)
  }

  /** Other tasks do not themselves write records under the key. */
  predicate Foreign(op: StoreOp, thread: string, key: string) {
    op.Append? && op.rec.threadId == thread ==> op.rec.key != Some(key)
  }

  predicate ForeignEvent(e: Event, thread: string, key: string) {
    match e
    case Send(job) => forall op <- job.during :: Foreign(op, thread, key)
    case Other(op) => Foreign(op, thread, key)
  }

  /** Either the key is not recorded on the thread or its lookup yields a provider id. */
  ghost predicate Sound(s: StoreState, thread: string, key: string) {
    var recs := MessagesOf(s, thread);
    (forall r <- recs :: r.key != Some(key)) || Lookup(recs, key).Some?
  }

  function Recorded(s: StoreState, thread: string, key: string): Option<string> {
    Lookup(MessagesOf(s, thread), key)
  }

  function Bit(b: bool): nat {
    if b then 1 else 0
  }

  lemma {:induction false} LookupSnoc(recs: seq<Record>, r: Record, key: string)
    requires (forall x <- recs :: x.key != Some(key)) || Lookup(recs, key).Some?
    ensures Lookup(recs + [r], key)
      == if Lookup(recs, key).Some? then Lookup(recs, key) else if r.key == Some(key) then r.providerMsgId else None
    decreases |recs|
  {
    if recs == [] {
      assert [r][1..] == [] && recs + [r] == [r];
    } else if recs[0].key != Some(key) {
      LookupSnoc(recs[1..], r, key);
      assert (recs + [r])[1..] == recs[1..] + [r];
    }
  }

  /** One store operation of another task: the recorded id survives unless the thread's messages
      are dropped. */
  lemma ForeignKeeps(s: StoreState, op: StoreOp, thread: string, key: string)
    requires Sound(s, thread, key) && Foreign(op, thread, key)
    ensures Sound(Apply(s, op), thread, key)
    ensures !DropsThread(s, op, thread) ==> Recorded(Apply(s, op), thread, key) == Recorded(s, thread, key)
    ensures DropsThread(s, op, thread) ==> MessagesOf(Apply(s, op), thread) == []
  {
    if op.Append? && op.rec.threadId == thread {
      LookupSnoc(MessagesOf(s, thread), op.rec, key);
    }
  }

  lemma {:induction false} ForeignOpsKeep(s: StoreState, ops: seq<StoreOp>, thread: string, key: string)
    requires Sound(s, thread, key) && forall op <- ops :: Foreign(op, thread, key)
    ensures Sound(ApplyAll(s, ops), thread, key)
    ensures Bit(Recorded(s, thread, key).Some?) == LossesIn(s, ops, thread, key) + Bit(Recorded(ApplyAll(s, ops), thread, key).Some?)
    ensures DropsIn(s, ops, thread) == 0 ==> Recorded(ApplyAll(s, ops), thread, key) == Recorded(s, thread, key)
    ensures LossesIn(s, ops, thread, key) <= DropsIn(s, ops, thread)
    decreases |ops|
  {
    if ops != [] {
      EndsOf(ops);
      ForeignOpsKeep(s, Init(ops), thread, key);
      ForeignKeeps(ApplyAll(s, Init(ops)), Last(ops), thread, key);
    }
  }

  lemma {:induction false} AcksAppend(a: seq<Attempt>, b: seq<Attempt>, thread: string, key: string)
    ensures Acks(a + b, thread, key) == Acks(a, thread, key) + Acks(b, thread, key)
    ensures AckList(a + b, thread) == AckList(a, thread) + AckList(b, thread)
    decreases |b|
  {
    if b == [] {
      assert a + b == a;
    } else {
      AcksAppend(a, Init(b), thread, key);
      EndsOf(b);
      Assoc(a, Init(b), [Last(b)]);
      InitSnoc(a + Init(b), Last(b));
    }
  }

  lemma {:induction false} RefusedAcks(job: Job, n: nat, thread: string, key: string)
    requires AllRefused(job, n)
    ensures Acks(AttemptsOf(job, n), thread, key) == 0 && AckList(AttemptsOf(job, n), thread) == []
  {
    if n > 0 {
      RefusedAcks(job, n - 1, thread, key);
      assert Init(AttemptsOf(job, n)) == AttemptsOf(job, n - 1);
    }
  }

  /** A job's attempts hold at most one acknowledgement, and it is the final answer. */
  lemma JobAcks(job: Job, thread: string, key: string)
    ensures var attempts := AttemptsOf(job, AttemptCount(job));
      && Acks(attempts, thread, key)
         == Bit(FinalAnswer(job).Acked? && job.out.threadId == thread && job.out.key == key)
      && AckList(attempts, thread)
         == if FinalAnswer(job).Acked? && job.out.threadId == thread
            then [Delivery(job.out.key, job.out.content, FinalAnswer(job).msgId)] else []
  {
    var n := AttemptCount(job);
    RefusedAcks(job, n - 1, thread, key);
    assert Init(AttemptsOf(job, n)) == AttemptsOf(job, n - 1);
  }

  /** A successful job leaves its provider id on record under its key. */
  lemma ProcessRecords(w: WorkerState, channel: string, job: Job)
    requires Sound(w.store, job.out.threadId, job.out.key)
    requires forall op <- job.during :: Foreign(op, job.out.threadId, job.out.key)
    ensures var (w', r) := Process(w, channel, job);
      r.Ok? ==> Recorded(w'.store, job.out.threadId, job.out.key) == Some(r.value)
  {
    var out := job.out;
    ForeignOpsKeep(w.store, job.during, out.threadId, out.key);
    if FinalAnswer(job).Acked? {
      AppendSound(ApplyAll(w.store, job.during), RecordOf(out, FinalAnswer(job).msgId), out.threadId, out.key);
    }
  }

  /** The acknowledgements of a key grow by exactly the times its record was lost and the change
      from unrecorded to recorded; a recorded key that is not dropped stays as it is. */
  ghost predicate Accounts(w: WorkerState, w': WorkerState, drops: nat, losses: nat, thread: string, key: string) {
    var before, after := Recorded(w.store, thread, key), Recorded(w'.store, thread, key);
    && Sound(w'.store, thread, key) && losses <= drops
    && Acks(w'.sent, thread, key) + Bit(before.Some?) == Acks(w.sent, thread, key) + losses + Bit(after.Some?)
    && (drops == 0 && before.Some? ==> after == before && Acks(w'.sent, thread, key) == Acks(w.sent, thread, key))
  }

  lemma OtherAccounts(w: WorkerState, op: StoreOp, thread: string, key: string)
    requires Sound(w.store, thread, key) && Foreign(op, thread, key)
    ensures Accounts(w, w.(store := Apply(w.store, op)),
                     Bit(DropsThread(w.store, op, thread)), Bit(Loses(w.store, op, thread, key)), thread, key)
  {
    ForeignKeeps(w.store, op, thread, key);
  }

  /** A job that does send, on whichever thread and key. */
  lemma SentAccounts(w: WorkerState, job: Job, store: StoreState, thread: string, key: string)
    requires Sound(w.store, thread, key) && forall op <- job.during :: Foreign(op, thread, key)
    requires job.out.threadId == thread && job.out.key == key ==> Recorded(w.store, thread, key).None?
    requires store == match FinalAnswer(job)
      case Refused(_) => ApplyAll(w.store, job.during)
      case Acked(id) => Apply(ApplyAll(w.store, job.during), Append(RecordOf(job.out, id)))
    ensures Accounts(w, WorkerState(store, w.sent + AttemptsOf(job, AttemptCount(job))),
                     DropsIn(w.store, job.during, thread), LossesIn(w.store, job.during, thread, key), thread, key)
  {
    var mid := ApplyAll(w.store, job.during);
    ForeignOpsKeep(w.store, job.during, thread, key);
    JobAcks(job, thread, key);
    AcksAppend(w.sent, AttemptsOf(job, AttemptCount(job)), thread, key);
    if FinalAnswer(job).Acked? {
      AppendSound(mid, RecordOf(job.out, FinalAnswer(job).msgId), thread, key);
    }
  }

  lemma AppendSound(s: StoreState, r: Record, thread: string, key: string)
    requires Sound(s, thread, key) && (r.key == Some(key) ==> r.providerMsgId.Some?)
    ensures Sound(Apply(s, Append(r)), thread, key)
    ensures Recorded(Apply(s, Append(r)), thread, key)
      == if Recorded(s, thread, key).Some? then Recorded(s, thread, key)
         else if r.threadId == thread && r.key == Some(key) then r.providerMsgId else None
  {
    LookupSnoc(MessagesOf(s, thread), r, key);
  }

  lemma StepAccounts(w: WorkerState, channel: string, e: Event, thread: string, key: string)
    requires Sound(w.store, thread, key) && ForeignEvent(e, thread, key)
    ensures Accounts(w, Step(w, channel, e), DropsAt(w, channel, e, thread), LossesAt(w, channel, e, thread, key), thread, key)
  {
    match e
    case Other(op) => OtherAccounts(w, op, thread, key);
    case Send(job) =>
      if Sends(w, channel, job) {
        SentAccounts(w, job, Process(w, channel, job).0.store, thread, key);
      }
  }

  /** Over every run, whatever the provider answers and whatever other tasks do to the store: a
      (thread, key) was acknowledged exactly as often as a record of it was dropped, plus once if
      it is on record now. */
  lemma {:induction false} AckedExactly(channel: string, events: seq<Event>, thread: string, key: string)
    requires forall e <- events :: ForeignEvent(e, thread, key)
    ensures Acks(Run(channel, events).sent, thread, key)
         == Losses(channel, events, thread, key) + Bit(Recorded(Run(channel, events).store, thread, key).Some?)
    ensures Losses(channel, events, thread, key) <= Drops(channel, events, thread)
    ensures Sound(Run(channel, events).store, thread, key)
    decreases |events|
  {
    if events != [] {
      EndsOf(events);
      AckedExactly(channel, Init(events), thread, key);
      StepAccounts(Run(channel, Init(events)), channel, Last(events), thread, key);
    }
  }

  /** So it is acknowledged at most once more often than the thread's messages are dropped, in
      particular at most once while the thread is not deleted; and more than once exactly if its
      record was dropped and made again, or dropped more than once. */
  lemma AckedAtMostOncePerLife(channel: string, events: seq<Event>, thread: string, key: string)
    requires forall e <- events :: ForeignEvent(e, thread, key)
    ensures Acks(Run(channel, events).sent, thread, key) <= Drops(channel, events, thread) + 1
    ensures Acks(Run(channel, events).sent, thread, key) <= 1
       <==> Losses(channel, events, thread, key) == 0
            || (Losses(channel, events, thread, key) == 1 && Recorded(Run(channel, events).store, thread, key).None?)
  {
    AckedExactly(channel, events, thread, key);
  }

  /** The bound is reached: deleting the thread makes the same key go out again. */
  lemma DeletionResends(channel: string, thread: string, key: string, content: Content)
    ensures var job := Job(OutboundMessage(thread, content, key), [Acked("m")], []);
      var events := [Send(job), Other(DeleteThread(thread)), Send(job)];
      Acks(Run(channel, events).sent, thread, key) == 2 && Drops(channel, events, thread) == 1
  {
    var job := Job(OutboundMessage(thread, content, key), [Acked("m")], []);
    var e1, e2, e3 := Send(job), Other(DeleteThread(thread)), Send(job);
    assert Init([e1, e2, e3]) == [e1, e2] && Init([e1, e2]) == [e1] && Init([e1]) == [];
    JobAcks(job, thread, key);
    var attempts := AttemptsOf(job, 1);
    var w0, w1, w2, w3 := Run(channel, []), Run(channel, [e1]), Run(channel, [e1, e2]), Run(channel, [e1, e2, e3]);
    assert w1.sent == [] + attempts;
    assert MessagesOf(w2.store, thread) == [];
    assert w3.sent == attempts + attempts;
    AcksAppend([], attempts, thread, key);
    AcksAppend(attempts, attempts, thread, key);
    assert Drops(channel, [e1], thread) == 0 && Drops(channel, [e1, e2], thread) == 1;
  }

  function ExtendRun(w: WorkerState, channel: string, events: seq<Event>): WorkerState {
    if events == [] then w else Step(ExtendRun(w, channel, Init(events)), channel, Last(events))
  }

  function DropsFrom(w: WorkerState, channel: string, events: seq<Event>, thread: string): nat {
    if events == [] then 0
    else DropsFrom(w, channel, Init(events), thread)
         + DropsAt(ExtendRun(w, channel, Init(events)), channel, Last(events), thread)
  }

  lemma {:induction false} RecordSurvives(w: WorkerState, channel: string, events: seq<Event>, thread: string, key: string)
    requires Sound(w.store, thread, key) && Recorded(w.store, thread, key).Some?
    requires forall e <- events :: ForeignEvent(e, thread, key)
    requires DropsFrom(w, channel, events, thread) == 0
    ensures Sound(ExtendRun(w, channel, events).store, thread, key)
    ensures Recorded(ExtendRun(w, channel, events).store, thread, key) == Recorded(w.store, thread, key)
    decreases |events|
  {
    if events != [] {
      EndsOf(events);
      RecordSurvives(w, channel, Init(events), thread, key);
      StepAccounts(ExtendRun(w, channel, Init(events)), channel, Last(events), thread, key);
    }
  }

  lemma {:induction false} ExtendedRun(channel: string, before: seq<Event>, after: seq<Event>, thread: string)
    ensures Run(channel, before + after) == ExtendRun(Run(channel, before), channel, after)
    ensures Drops(channel, before + after, thread)
         == Drops(channel, before, thread) + DropsFrom(Run(channel, before), channel, after, thread)
    decreases |after|
  {
    if after == [] {
      assert before + after == before;
    } else {
      ExtendedRun(channel, before, Init(after), thread);
      EndsOf(after);
      Assoc(before, Init(after), [Last(after)]);
      InitSnoc(before + Init(after), Last(after));
    }
  }

  /** Idempotent replay: once a job with a key has succeeded, every later job with that key on
      the thread returns the same provider id without a single send, for as long as the thread's
      messages are not dropped. */
  lemma LaterJobsReplay(before: seq<Event>, channel: string, first: Job, between: seq<Event>, later: Job)
    requires later.out.threadId == first.out.threadId && later.out.key == first.out.key
    requires forall e <- before + [Send(first)] + between :: ForeignEvent(e, first.out.threadId, first.out.key)
    requires Process(Run(channel, before), channel, first).1.Ok?
    requires Drops(channel, before + [Send(first)] + between, first.out.threadId)
          == Drops(channel, before + [Send(first)], first.out.threadId)
    ensures var after := Run(channel, before + [Send(first)] + between);
      Process(after, channel, later) == (after, Process(Run(channel, before), channel, first).1)
  {
    var t, k := first.out.threadId, first.out.key;
    assert forall e <- before :: e in before + [Send(first)] + between;
    assert Send(first) in before + [Send(first)] + between;
    AckedExactly(channel, before, t, k);
    ProcessRecords(Run(channel, before), channel, first);
    StepAccounts(Run(channel, before), channel, Send(first), t, k);
    InitSnoc(before, Send(first));
    ExtendedRun(channel, before + [Send(first)], between, t);
    RecordSurvives(Process(Run(channel, before), channel, first).0, channel, between, t, k);
  }

  // ----- The log holds exactly the acknowledgements -----------------------------

  predicate Keyless(op: StoreOp, thread: string) {
    op.Append? && op.rec.threadId == thread ==> op.rec.key.None?
  }

  predicate KeylessEvent(e: Event, thread: string) {
    match e
    case Send(job) => forall op <- job.during :: Keyless(op, thread)
    case Other(op) => Keyless(op, thread)
  }

  /** The keyed records carry distinct keys, each with a provider id. */
  predicate KeyedOnce(recs: seq<Record>) {
    && (forall r <- recs :: r.key.Some? ==> r.providerMsgId.Some?)
    && forall i, j :: 0 <= i < j < |recs| && recs[i].key.Some? ==> recs[i].key != recs[j].key
  }

  lemma {:induction false} LookupMissing(recs: seq<Record>, key: string)
    requires KeyedOnce(recs) && Lookup(recs, key) == None
    ensures forall r <- recs :: r.key != Some(key)
    decreases |recs|
  {
    if recs != [] {
      LookupMissing(recs[1..], key);
      assert recs == [recs[0]] + recs[1..];
    }
  }

  lemma KeyedSnoc(recs: seq<Record>, r: Record)
    ensures Keyed(recs + [r])
      == Keyed(recs) + (if r.key.Some? && r.providerMsgId.Some? then [Delivery(r.key.value, r.content, r.providerMsgId.value)] else [])
  {
    assert Init(recs + [r]) == recs;
  }

  lemma KeyedOnceSnoc(recs: seq<Record>, r: Record)
    requires KeyedOnce(recs)
    requires r.key.Some? ==> r.providerMsgId.Some? && forall x <- recs :: x.key != r.key
    ensures KeyedOnce(recs + [r])
  {
  }

  ghost predicate SameKeyed(before: seq<Record>, after: seq<Record>) {
    && KeyedOnce(after) && Keyed(after) == Keyed(before)
    && forall r <- after :: r.key.Some? ==> r in before
  }

  lemma KeylessOpKeeps(s: StoreState, op: StoreOp, thread: string)
    requires KeyedOnce(MessagesOf(s, thread))
    requires Keyless(op, thread) && !DropsThread(s, op, thread)
    ensures SameKeyed(MessagesOf(s, thread), MessagesOf(Apply(s, op), thread))
  {
    var recs := MessagesOf(s, thread);
    if op.Append? && op.rec.threadId == thread {
      KeyedSnoc(recs, op.rec);
      KeyedOnceSnoc(recs, op.rec);
      assert MessagesOf(Apply(s, op), thread) == recs + [op.rec];
    } else {
      assert MessagesOf(Apply(s, op), thread) == recs;
    }
  }

  lemma {:induction false} KeylessOpsKeep(s: StoreState, ops: seq<StoreOp>, thread: string)
    requires KeyedOnce(MessagesOf(s, thread))
    requires forall op <- ops :: Keyless(op, thread)
    requires DropsIn(s, ops, thread) == 0
    ensures SameKeyed(MessagesOf(s, thread), MessagesOf(ApplyAll(s, ops), thread))
    decreases |ops|
  {
    if ops != [] {
      EndsOf(ops);
      KeylessOpsKeep(s, Init(ops), thread);
      KeylessOpKeeps(ApplyAll(s, Init(ops)), Last(ops), thread);
    }
  }

  /** What was acknowledged on the thread since its messages were last dropped, in order. */
  function LiveAcks(channel: string, events: seq<Event>, thread: string): seq<Delivery> {
    if events == [] then []
    else
      var w, e, prev := Run(channel, Init(events)), Last(events), LiveAcks(channel, Init(events), thread);
      LiveAfter(w, channel, e, thread, prev)
  }

  function LiveAfter(w: WorkerState, channel: string, e: Event, thread: string, prev: seq<Delivery>): seq<Delivery> {
    (if DropsAt(w, channel, e, thread) > 0 then [] else prev)
    + (if e.Send? && Sends(w, channel, e.job) then Acknowledged(e.job, thread) else [])
  }

  /** What the provider acknowledges of a job that is sent, if it is on the thread. */
  function Acknowledged(job: Job, thread: string): seq<Delivery> {
    if FinalAnswer(job).Acked? && job.out.threadId == thread
    then [Delivery(job.out.key, job.out.content, FinalAnswer(job).msgId)] else []
  }

  /** The keyed records of the thread are the given deliveries. */
  ghost predicate Holds(s: StoreState, thread: string, live: seq<Delivery>) {
    KeyedOnce(MessagesOf(s, thread)) && Keyed(MessagesOf(s, thread)) == live
  }

  lemma AppendAgrees(s: StoreState, before: seq<Record>, out: OutboundMessage, id: string)
    requires SameKeyed(before, MessagesOf(s, out.threadId)) && forall x <- before :: x.key != Some(out.key)
    ensures var recs := MessagesOf(Apply(s, Append(RecordOf(out, id))), out.threadId);
      KeyedOnce(recs) && Keyed(recs) == Keyed(before) + [Delivery(out.key, out.content, id)]
  {
    var recs, r := MessagesOf(s, out.threadId), RecordOf(out, id);
    KeyedSnoc(recs, r);
    KeyedOnceSnoc(recs, r);
    assert MessagesOf(Apply(s, Append(r)), out.threadId) == recs + [r];
  }

  lemma {:induction false} DroppedKeyless(s: StoreState, ops: seq<StoreOp>, thread: string)
    requires KeyedOnce(MessagesOf(s, thread))
    requires forall op <- ops :: Keyless(op, thread)
    requires DropsIn(s, ops, thread) > 0
    ensures Holds(ApplyAll(s, ops), thread, [])
    decreases |ops|
  {
    var mid := ApplyAll(s, Init(ops));
    EndsOf(ops);
    if DropsIn(s, Init(ops), thread) > 0 {
      DroppedKeyless(s, Init(ops), thread);
    } else {
      KeylessOpsKeep(s, Init(ops), thread);
    }
    if DropsThread(mid, Last(ops), thread) {
      assert MessagesOf(Apply(mid, Last(ops)), thread) == [];
    } else {
      KeylessOpKeeps(mid, Last(ops), thread);
    }
  }

  /** The store after the other tasks' operations, and before the record of a sent job. */
  lemma DuringHolds(w: WorkerState, job: Job, thread: string, live: seq<Delivery>)
    requires Holds(w.store, thread, live) && KeylessEvent(Send(job), thread)
    requires Lookup(MessagesOf(w.store, job.out.threadId), job.out.key).None?
    ensures Holds(ApplyAll(w.store, job.during), thread, if DropsIn(w.store, job.during, thread) > 0 then [] else live)
    ensures job.out.threadId == thread ==>
      forall r <- MessagesOf(ApplyAll(w.store, job.during), thread) :: r.key != Some(job.out.key)
  {
    var mid := MessagesOf(ApplyAll(w.store, job.during), thread);
    if DropsIn(w.store, job.during, thread) > 0 {
      DroppedKeyless(w.store, job.during, thread);
      NothingKeyed(mid);
    } else {
      KeylessOpsKeep(w.store, job.during, thread);
      if job.out.threadId == thread {
        LookupMissing(MessagesOf(w.store, thread), job.out.key);
      }
    }
  }

  lemma {:induction false} NothingKeyed(recs: seq<Record>)
    requires KeyedOnce(recs) && Keyed(recs) == []
    ensures forall r <- recs :: r.key.None?
    decreases |recs|
  {
    if recs != [] {
      EndsOf(recs);
      assert forall i :: 0 <= i < |Init(recs)| ==> Init(recs)[i] == recs[i];
      NothingKeyed(Init(recs));
    }
  }

  lemma JobHolds(w: WorkerState, channel: string, job: Job, thread: string, live: seq<Delivery>)
    requires Holds(w.store, thread, live) && KeylessEvent(Send(job), thread)
    ensures Holds(Process(w, channel, job).0.store, thread, LiveAfter(w, channel, Send(job), thread, live))
  {
    if Sends(w, channel, job) {
      DuringHolds(w, job, thread, live);
      var kept := if DropsIn(w.store, job.during, thread) > 0 then [] else live;
      assert LiveAfter(w, channel, Send(job), thread, live) == kept + Acknowledged(job, thread);
      SentHolds(w, channel, job, thread, kept);
    } else {
      assert live + [] == live;
    }
  }

  lemma SentHolds(w: WorkerState, channel: string, job: Job, thread: string, kept: seq<Delivery>)
    requires Sends(w, channel, job) && Holds(ApplyAll(w.store, job.during), thread, kept)
    requires job.out.threadId == thread ==>
      forall r <- MessagesOf(ApplyAll(w.store, job.during), thread) :: r.key != Some(job.out.key)
    ensures Holds(Process(w, channel, job).0.store, thread, kept + Acknowledged(job, thread))
  {
    if FinalAnswer(job).Acked? {
      AckHolds(ApplyAll(w.store, job.during), job, thread, kept);
    } else {
      assert kept + [] == kept;
    }
  }

  lemma AckHolds(mid: StoreState, job: Job, thread: string, kept: seq<Delivery>)
    requires FinalAnswer(job).Acked? && Holds(mid, thread, kept)
    requires job.out.threadId == thread ==> forall r <- MessagesOf(mid, thread) :: r.key != Some(job.out.key)
    ensures Holds(Apply(mid, Append(RecordOf(job.out, FinalAnswer(job).msgId))), thread, kept + Acknowledged(job, thread))
  {
    if job.out.threadId == thread {
      AppendAgrees(mid, MessagesOf(mid, thread), job.out, FinalAnswer(job).msgId);
    } else {
      assert MessagesOf(Apply(mid, Append(RecordOf(job.out, FinalAnswer(job).msgId))), thread) == MessagesOf(mid, thread);
      assert kept + [] == kept;
    }
  }

  lemma OtherHolds(w: WorkerState, channel: string, op: StoreOp, thread: string, live: seq<Delivery>)
    requires Holds(w.store, thread, live) && Keyless(op, thread)
    ensures Holds(Apply(w.store, op), thread, LiveAfter(w, channel, Other(op), thread, live))
  {
    if DropsThread(w.store, op, thread) {
      assert MessagesOf(Apply(w.store, op), thread) == [];
    } else {
      KeylessOpKeeps(w.store, op, thread);
      assert live + [] == live;
    }
  }

  /** Over every run, deletions included: the keyed records of a thread are exactly what the
      provider acknowledged on it since its messages were last dropped, one per key and in the
      order of acknowledgement. */
  lemma {:induction false} LogIsLiveAcks(channel: string, events: seq<Event>, thread: string)
    requires forall e <- events :: KeylessEvent(e, thread)
    ensures Holds(Run(channel, events).store, thread, LiveAcks(channel, events, thread))
    decreases |events|
  {
    if events != [] {
      var w, e := Run(channel, Init(events)), Last(events);
      EndsOf(events);
      LogIsLiveAcks(channel, Init(events), thread);
      match e
      case Send(job) => JobHolds(w, channel, job, thread, LiveAcks(channel, Init(events), thread));
      case Other(op) => OtherHolds(w, channel, op, thread, LiveAcks(channel, Init(events), thread));
    }
  }

  /** While nothing is dropped these are all acknowledgements on the thread. */
  lemma {:induction false} UndroppedAcks(channel: string, events: seq<Event>, thread: string)
    requires Drops(channel, events, thread) == 0
    ensures LiveAcks(channel, events, thread) == AckList(Run(channel, events).sent, thread)
    decreases |events|
  {
    if events != [] {
      var w, e := Run(channel, Init(events)), Last(events);
      UndroppedAcks(channel, Init(events), thread);
      if e.Send? && Sends(w, channel, e.job) {
        JobAcks(e.job, thread, e.job.out.key);
        AcksAppend(w.sent, AttemptsOf(e.job, AttemptCount(e.job)), thread, e.job.out.key);
      } else {
        assert AckList(w.sent, thread) + [] == AckList(w.sent, thread);
      }
    }
  }

  /** While a thread lives, its keyed records are exactly the provider's acknowledgements on it,
      one per key and in the order of acknowledgement. */
  lemma LogIsAckList(channel: string, events: seq<Event>, thread: string)
    requires forall e <- events :: KeylessEvent(e, thread)
    requires Drops(channel, events, thread) == 0
    ensures Holds(Run(channel, events).store, thread, AckList(Run(channel, events).sent, thread))
  {
    LogIsLiveAcks(channel, events, thread);
    UndroppedAcks(channel, events, thread);
  }

  // ----- Every attempt is permitted ----------------------------------------------------

  /** Attempt `k` of the run is one of the job of event `i`, whose key was not on record, and which the
      channel's spec, as stored then, permitted. */
  ghost predicate AttemptedAt(channel: string, events: seq<Event>, k: nat, i: nat)
    requires k < |Run(channel, events).sent| && i < |events|
  {
    var before, after := Run(channel, events[..i]), Run(channel, events[..i + 1]);
    && events[i].Send? && |before.sent| <= k < |after.sent|
    && Run(channel, events).sent[k].out == events[i].job.out
    && Permitted(before.store, channel, events[i].job.out)
    && forall id :: !OnRecord(before.store, events[i].job.out, id)
  }

  lemma SendPermitted(w: WorkerState, channel: string, job: Job)
    ensures w.sent <= Process(w, channel, job).0.sent
    ensures forall k :: |w.sent| <= k < |Process(w, channel, job).0.sent| ==>
      && Process(w, channel, job).0.sent[k].out == job.out
      && Permitted(w.store, channel, job.out) && forall id :: !OnRecord(w.store, job.out, id)
  {
    RecordedIsOnRecord(w.store, job.out);
    CapabilityMeans(w.store, channel, job.out);
  }

  /** Over every run, whatever providers and other tasks do: each attempt is of a message that the job of
      some event asked to send, all of whose leaves were enabled by the spec stored when that job was
      taken, if there was one, and whose key was not on record. */
  lemma {:induction false} AttemptsArePermitted(channel: string, events: seq<Event>, k: nat) returns (i: nat)
    requires k < |Run(channel, events).sent|
    ensures i < |events| && AttemptedAt(channel, events, k, i)
    decreases |events|
  {
    var w, e, n := Run(channel, Init(events)), Last(events), |events| - 1;
    assert events[..n] == Init(events) && events[..n + 1] == events && events[n] == e;
    if e.Send? {
      SendPermitted(w, channel, e.job);
    }
    if k < |w.sent| {
      i := AttemptsArePermitted(channel, Init(events), k);
      assert Init(events)[..i] == events[..i] && Init(events)[..i + 1] == events[..i + 1];
    } else {
      i := n;
    }
  }
}
