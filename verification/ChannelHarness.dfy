/** The channel orchestrator: attaching providers, opening and closing threads, and the inbound
    loop that deduplicates, auto-opens, records and dispatches. Each operation is one step. */
module ChannelHarness {
  import opened Prelude
  import opened MessageContent
  import opened ChannelIds
  import opened ChannelStore

  datatype ChannelError =
    | UnknownThread(id: string)
    | UnknownChannel(channel: string)
    | DuplicateChannel(channel: string)
    | CapabilityDenied(denied: Denied)
    | NotStarted(channel: string)

  datatype InboundMessage = InboundMessage(channel: string, peer: string, providerMsgId: string, content: Content)

  /** A message queued for a channel's outbound worker: the reply to a turn, or an admin send. */
  datatype Outgoing = Outgoing(channel: string, threadId: string, peer: string, content: Content, replyTo: Option<string>,
                               key: string)

  /** What a target replies or an administrator sends, with the idempotency key made up for it. */
  datatype Draft = Draft(content: Content, key: string)

  /** A turn handed to a thread's target. */
  datatype Turn = Turn(threadId: string, channel: string, providerMsgId: string, target: Target)

  datatype Config = Config(historyCap: nat, autoOpen: Option<Target>)

  datatype State = State(providers: set<string>,
                         cache: map<string, Thread>,
                         store: StoreState,
                         turns: seq<Turn>,
                         outbox: seq<Outgoing>)

  datatype Op =
    | Attach(spec: ChannelSpec, started: bool)
    | Detach(channel: string)
    | Open(channel: string, peer: string, target: Target)
    | Close(threadId: string)
    | Ingest(msg: InboundMessage, reply: Option<Draft>)
    | Send(threadId: string, draft: Draft)
    | WorkerAppend(rec: Record)
    | DropChannel(channel: string)

  // ----- Thread history ----------------------------------------------------

  /** `Thread::push`: append, then drop from the front what exceeds the cap (0 is unbounded). */
  function Pushed(t: Thread, role: Role, text: string): Thread {
    var h := t.history + [Message(role, text)];
    t.(history := if t.historyCap > 0 && |h| > t.historyCap then h[|h| - t.historyCap..] else h)
  }

  /** A thread as the object whose history is changed in place. */
  class LiveThread {
    const id: string
    const channel: string
    const peer: string
    const historyCap: nat
    var target: Target
    var history: seq<Message>

    constructor (id: string, channel: string, peer: string, target: Target, historyCap: nat)
      ensures Snapshot() == Thread(id, channel, peer, target, [], historyCap)
    {
      this.id, this.channel, this.peer, this.historyCap := id, channel, peer, historyCap;
      this.target, history := target, [];
    }

    function Snapshot(): Thread
      reads this
    {
      Thread(id, channel, peer, target, history, historyCap)
    }

    method Push(role: Role, text: string)
      modifies this`history
      ensures Snapshot() == Pushed(old(Snapshot()), role, text)
    {
      history := history + [Message(role, text)];
      if historyCap > 0 && |history| > historyCap {
        var excess := |history| - historyCap;
        history := history[excess..];
      }
    }
  }

  function PushAll(t: Thread, ms: seq<Message>): Thread {
    if ms == [] then t else Pushed(PushAll(t, Init(ms)), Last(ms).role, Last(ms).content)
  }

  /** The last `cap` elements, all of them when `cap` is zero. */
  function Newest<T>(s: seq<T>, cap: nat): seq<T> {
    if cap > 0 && |s| > cap then s[|s| - cap..] else s
  }

  /** However many messages are pushed onto a new thread, its history is exactly the newest
      `cap` of them in order; nothing else of the thread changes. */
  lemma {:induction false} HistoryIsNewest(t: Thread, ms: seq<Message>)
    requires t.history == []
    ensures PushAll(t, ms) == t.(history := Newest(ms, t.historyCap))
    decreases |ms|
  {
    if ms != [] {
      HistoryIsNewest(t, Init(ms));
      var cap := t.historyCap;
      assert Message(Last(ms).role, Last(ms).content) == Last(ms);
      assert ms == Init(ms) + [Last(ms)];
      if cap > 0 && |ms| > cap + 1 {
        assert (Init(ms)[|ms| - 1 - cap..] + [Last(ms)])[1..] == ms[|ms| - cap..];
      }
    }
  }

  // ----- One operation as a function of the state ---------------------------

  function NewThread(cfg: Config, channel: string, peer: string, target: Target): Thread {
    Thread(ForPeer(channel, peer), channel, peer, target, [], cfg.historyCap)
  }

  function InboundRecord(id: string, msg: InboundMessage): Record {
    Record(id, Inbound, msg.content, Some(msg.providerMsgId), None)
  }

  /** Looks the thread up in the cache, or opens it when a default target is configured. */
  function FindOrOpen(s: State, cfg: Config, msg: InboundMessage): Result<State, ChannelError> {
    var id := ForPeer(msg.channel, msg.peer);
    if id in s.cache then Ok(s)
    else if cfg.autoOpen.None? then Err(UnknownThread(id))
    else
      var t := NewThread(cfg, msg.channel, msg.peer, cfg.autoOpen.value);
      Ok(s.(cache := s.cache[id := t], store := Apply(s.store, UpsertThread(t))))
  }

  /** The turn itself: history, log, dispatch, and the reply if the target gave one. */
  function TakeTurn(s: State, msg: InboundMessage, reply: Option<Draft>): (r: (State, Result<(), ChannelError>))
    requires ForPeer(msg.channel, msg.peer) in s.cache
  {
    var id := ForPeer(msg.channel, msg.peer);
    var heard := Pushed(s.cache[id], User, AsText(msg.content));
    var s1 := s.(cache := s.cache[id := heard],
                 store := Apply(s.store, Append(InboundRecord(id, msg))),
                 turns := s.turns + [Turn(id, msg.channel, msg.providerMsgId, heard.target)]);
    if reply.None? then (s1, Ok(()))
    else
      var s2 := s1.(cache := s1.cache[id := Pushed(heard, Assistant, AsText(reply.value.content))]);
      if msg.channel !in s.providers then (s2, Err(UnknownChannel(msg.channel)))
      else (s2.(outbox := s2.outbox + [Outgoing(msg.channel, id, msg.peer, reply.value.content, Some(msg.providerMsgId), reply.value.key)]), Ok(()))
  }

  function Hearing(s: State, cfg: Config, msg: InboundMessage, reply: Option<Draft>)
    : (State, Result<(), ChannelError>)
  {
    if (msg.channel, msg.providerMsgId) in s.store.seen then (s, Ok(()))
    else
      match FindOrOpen(s, cfg, msg)
      case Err(e) => (s, Err(e))
      case Ok(s') => TakeTurn(s', msg, reply)
  }

  function Opening(s: State, cfg: Config, channel: string, peer: string, target: Target): (State, Result<(), ChannelError>) {
    if channel !in s.providers then (s, Err(UnknownChannel(channel)))
    else
      var id := ForPeer(channel, peer);
      var t := NewThread(cfg, channel, peer, target);
      var cached := if id in s.cache then s.cache[id].(target := target) else t;
      (s.(cache := s.cache[id := cached], store := Apply(s.store, UpsertThread(t))), Ok(()))
  }

  /** The admin send: it bypasses the thread's target, but not the capabilities of its channel. */
  function Sending(s: State, id: string, draft: Draft): (State, Result<(), ChannelError>) {
    if id !in s.cache then (s, Err(UnknownThread(id)))
    else
      var t := s.cache[id];
      if t.channel !in s.store.channels then (s, Err(UnknownChannel(t.channel)))
      else
        var caps := CheckCapabilities(draft.content, s.store.channels[t.channel].capabilities);
        if caps.Err? then (s, Err(CapabilityDenied(caps.error)))
        else if t.channel !in s.providers then (s, Err(UnknownChannel(t.channel)))
        else (s.(outbox := s.outbox + [Outgoing(t.channel, id, t.peer, draft.content, None, draft.key)]), Ok(()))
  }

  function Step(s: State, cfg: Config, op: Op): State {
    match op
    case Attach(spec, started) =>
      if spec.id in s.providers then s
      else s.(providers := if started then s.providers + {spec.id} else s.providers,
              store := Apply(s.store, UpsertChannel(spec)))
    case Detach(channel) => s.(providers := s.providers - {channel})
    case Open(channel, peer, target) => Opening(s, cfg, channel, peer, target).0
    case Close(id) => s.(cache := s.cache - {id}, store := Apply(s.store, DeleteThread(id)))
    case Ingest(msg, reply) => Hearing(s, cfg, msg, reply).0
    case Send(id, draft) => Sending(s, id, draft).0
    case WorkerAppend(rec) => s.(store := Apply(s.store, Append(rec)))
    case DropChannel(channel) => s.(store := Apply(s.store, DeleteChannel(channel)))
  }

  const Start := State({}, map[], Empty, [], [])

  function Run(cfg: Config, ops: seq<Op>): State {
    if ops == [] then Start else Step(Run(cfg, Init(ops)), cfg, Last(ops))
  }

  // ----- The harness object ---------------------------------------------------

  class Harness {
    const cfg: Config
    const store: InMemoryChannelStore
    var providers: set<string>
    var cache: map<string, Thread>
    var turns: seq<Turn>
    var outbox: seq<Outgoing>

    constructor (cfg: Config)
      ensures this.cfg == cfg && fresh(store) && Snapshot() == Start
    {
      this.cfg := cfg;
      store := new InMemoryChannelStore();
      providers, cache, turns, outbox := {}, map[], [], [];
    }

    function Snapshot(): State
      reads this, store
    {
      State(providers, cache, store.State(), turns, outbox)
    }

    /** `started` tells whether the provider starts. If it does not, the spec stays in the store. */
    method AttachProvider(spec: ChannelSpec, started: bool) returns (r: Result<(), ChannelError>)
      modifies this, store
      ensures Snapshot() == Step(old(Snapshot()), cfg, Attach(spec, started))
      ensures r == if spec.id in old(providers) then Err(DuplicateChannel(spec.id))
                   else if started then Ok(()) else Err(NotStarted(spec.id))
    {
      if spec.id in providers {
        return Err(DuplicateChannel(spec.id));
      }
      store.UpsertChannel(spec);
      if !started {
        return Err(NotStarted(spec.id));
      }
      providers := providers + {spec.id};
      r := Ok(());
    }

    method DetachProvider(channel: string) returns (r: Result<(), ChannelError>)
      modifies this
      ensures Snapshot() == Step(old(Snapshot()), cfg, Detach(channel))
      ensures r == if channel in old(providers) then Ok(()) else Err(UnknownChannel(channel))
    {
      if channel !in providers {
        assert providers - {channel} == providers;
        return Err(UnknownChannel(channel));
      }
      providers := providers - {channel};
      r := Ok(());
    }

    method OpenThread(channel: string, peer: string, target: Target) returns (r: Result<(), ChannelError>)
      modifies this, store
      ensures (Snapshot(), r) == Opening(old(Snapshot()), cfg, channel, peer, target)
      ensures r == if channel in old(providers) then Ok(()) else Err(UnknownChannel(channel))
    {
      if channel !in providers {
        return Err(UnknownChannel(channel));
      }
      var id := ForPeer(channel, peer);
      var thread := NewThread(cfg, channel, peer, target);
      if id in cache {
        cache := cache[id := cache[id].(target := target)];
      } else {
        cache := cache[id := thread];
      }
      store.UpsertThread(thread);
      r := Ok(());
    }

    method CloseThread(id: string)
      modifies this, store
      ensures Snapshot() == Step(old(Snapshot()), cfg, Close(id))
    {
      cache := cache - {id};
      store.DeleteThread(id);
    }

    /** Queues the message; what the worker makes of it is the result its caller awaits. */
    method AdminSend(id: string, draft: Draft) returns (r: Result<(), ChannelError>)
      modifies this
      ensures (Snapshot(), r) == Sending(old(Snapshot()), id, draft)
      ensures r == Err(UnknownThread(id)) <==> id !in cache
      ensures id in cache && cache[id].channel !in store.channels ==> r == Err(UnknownChannel(cache[id].channel))
      ensures id in cache && cache[id].channel in store.channels ==>
        var leaves, caps := Leaves(draft.content), store.channels[cache[id].channel].capabilities;
        if forall leaf <- leaves :: Enabled(leaf, caps)
        then r == if cache[id].channel in providers then Ok(()) else Err(UnknownChannel(cache[id].channel))
        else r.Err? && r.error.CapabilityDenied? && NamesFirst(r.error.denied, leaves, caps)
    {
      if id !in cache {
        return Err(UnknownThread(id));
      }
      var channel, peer := cache[id].channel, cache[id].peer;
      var spec := store.GetChannel(channel);
      if spec.None? {
        return Err(UnknownChannel(channel));
      }
      var caps := CheckCapabilities(draft.content, spec.value.capabilities);
      CheckDecidesLeaves(draft.content, spec.value.capabilities);
      if caps.Err? {
        return Err(CapabilityDenied(caps.error));
      }
      if channel !in providers {
        return Err(UnknownChannel(channel));
      }
      outbox := outbox + [Outgoing(channel, id, peer, draft.content, None, draft.key)];
      r := Ok(());
    }

    /** `reply` is what the thread's target answers if it is called. */
    method HandleInbound(msg: InboundMessage, reply: Option<Draft>) returns (r: Result<(), ChannelError>)
      modifies this, store
      ensures (Snapshot(), r) == Hearing(old(Snapshot()), cfg, msg, reply)
      ensures (msg.channel, msg.providerMsgId) in old(store.seen) ==> Snapshot() == old(Snapshot()) && r == Ok(())
      ensures (msg.channel, msg.providerMsgId) !in old(store.seen) ==>
        var id := ForPeer(msg.channel, msg.peer);
        if id !in old(cache) && cfg.autoOpen.None? then Snapshot() == old(Snapshot()) && r == Err(UnknownThread(id))
        else if reply.Some? && msg.channel !in providers
        then outbox == old(outbox) && r == Err(UnknownChannel(msg.channel))
        else r == Ok(())
             && outbox == old(outbox) + if reply.None? then []
                  else [Outgoing(msg.channel, id, msg.peer, reply.value.content, Some(msg.providerMsgId), reply.value.key)]
    {
      var dup := store.HasInbound(msg.channel, msg.providerMsgId);
      if dup {
        return Ok(());
      }
      var id := ForPeer(msg.channel, msg.peer);
      if id !in cache {
        if cfg.autoOpen.None? {
          return Err(UnknownThread(id));
        }
        var t := NewThread(cfg, msg.channel, msg.peer, cfg.autoOpen.value);
        cache := cache[id := t];
        store.UpsertThread(t);
      }
      cache := cache[id := Pushed(cache[id], User, AsText(msg.content))];
      store.AppendMessage(InboundRecord(id, msg));
      turns := turns + [Turn(id, msg.channel, msg.providerMsgId, cache[id].target)];
      r := Ok(());
      if reply.Some? {
        cache := cache[id := Pushed(cache[id], Assistant, AsText(reply.value.content))];
        if msg.channel !in providers {
          return Err(UnknownChannel(msg.channel));
        }
        outbox := outbox + [Outgoing(msg.channel, id, msg.peer, reply.value.content, Some(msg.providerMsgId), reply.value.key)];
      }
    }
  }

  // ----- Whole runs -------------------------------------------------------------

  function TurnKeys(turns: seq<Turn>): seq<(string, string)> {
    seq(|turns|, i requires 0 <= i < |turns| => (turns[i].channel, turns[i].providerMsgId))
  }

  /** The operation concerns only channels of the given set. */
  predicate On(op: Op, channels: set<string>) {
    match op
    case Open(channel, _, _) => channel in channels
    case Ingest(msg, _) => msg.channel in channels
    case _ => true
  }

  /** ... and it does not delete a channel. */
  predicate Within(op: Op, channels: set<string>) {
    On(op, channels) && !op.DropChannel?
  }

  /** A channel is deleted only while none of its threads is cached. */
  predicate Tidy(s: State, op: Op) {
    op.DropChannel? ==> forall id :: id in s.cache ==> s.cache[id].channel != op.channel
  }

  predicate TidyRun(cfg: Config, ops: seq<Op>)
    decreases |ops|
  {
    ops == [] || (TidyRun(cfg, Init(ops)) && Tidy(Run(cfg, Init(ops)), Last(ops)))
  }

  /** Cached threads are in the store on their own channel, under the id of their channel and
      peer. */
  ghost predicate Housed(s: State, channels: set<string>) {
    forall id :: id in s.cache ==>
      && s.cache[id].channel in channels
      && id == ForPeer(s.cache[id].channel, s.cache[id].peer)
      && id in s.store.threads
      && s.store.threads[id].channel == s.cache[id].channel
  }

  function KeyOf(msg: InboundMessage): (string, string) {
    (msg.channel, msg.providerMsgId)
  }

  /** A turn marks its own (channel, provider id) and nothing else, because its thread is stored
      under its own channel. */
  lemma TurnMarks(s: State, msg: InboundMessage, reply: Option<Draft>, channels: set<string>)
    requires AllSeparated(channels) && Housed(s, channels) && msg.channel in channels
    requires ForPeer(msg.channel, msg.peer) in s.cache
    ensures var s' := TakeTurn(s, msg, reply).0;
      && Housed(s', channels)
      && s'.store.seen == s.store.seen + {KeyOf(msg)} && TurnKeys(s'.turns) == TurnKeys(s.turns) + [KeyOf(msg)]
  {
    var id := ForPeer(msg.channel, msg.peer);
    ForPeerInjective(s.cache[id].channel, s.cache[id].peer, msg.channel, msg.peer);
    assert Marks(s.store.threads, InboundRecord(id, msg)) == {KeyOf(msg)};
  }

  lemma OpenKeepsHoused(s: State, cfg: Config, msg: InboundMessage, channels: set<string>)
    requires AllSeparated(channels) && Housed(s, channels) && msg.channel in channels && FindOrOpen(s, cfg, msg).Ok?
    ensures var s' := FindOrOpen(s, cfg, msg).value;
      && Housed(s', channels) && ForPeer(msg.channel, msg.peer) in s'.cache
      && s'.store.seen == s.store.seen && s'.turns == s.turns
  {
  }

  /** A message that is not a duplicate and finds or opens its thread. */
  lemma NewMessage(s: State, cfg: Config, msg: InboundMessage, reply: Option<Draft>, channels: set<string>)
    requires AllSeparated(channels) && Housed(s, channels) && msg.channel in channels
    requires KeyOf(msg) !in s.store.seen && FindOrOpen(s, cfg, msg).Ok?
    ensures var s' := Hearing(s, cfg, msg, reply).0;
      && Housed(s', channels)
      && s'.store.seen == s.store.seen + {KeyOf(msg)} && TurnKeys(s'.turns) == TurnKeys(s.turns) + [KeyOf(msg)]
  {
    OpenKeepsHoused(s, cfg, msg, channels);
    TurnMarks(FindOrOpen(s, cfg, msg).value, msg, reply, channels);
  }

  predicate TakesTurn(s: State, cfg: Config, op: Op) {
    op.Ingest? && KeyOf(op.msg) !in s.store.seen && FindOrOpen(s, cfg, op.msg).Ok?
  }

  lemma QuietStep(s: State, cfg: Config, op: Op, channels: set<string>)
    requires AllSeparated(channels) && Housed(s, channels) && On(op, channels) && Tidy(s, op)
    requires !TakesTurn(s, cfg, op)
    ensures Housed(Step(s, cfg, op), channels) && Step(s, cfg, op).turns == s.turns
  {
    if op.Open? {
      var id := ForPeer(op.channel, op.peer);
      if id in s.cache {
        ForPeerInjective(s.cache[id].channel, s.cache[id].peer, op.channel, op.peer);
      }
    }
  }

  lemma StepKeepsHoused(s: State, cfg: Config, op: Op, channels: set<string>)
    requires AllSeparated(channels) && Housed(s, channels) && On(op, channels) && Tidy(s, op)
    ensures Housed(Step(s, cfg, op), channels)
  {
    if TakesTurn(s, cfg, op) {
      NewMessage(s, cfg, op.msg, op.reply, channels);
    } else {
      QuietStep(s, cfg, op, channels);
    }
  }

  lemma {:induction false} RunKeepsHoused(cfg: Config, ops: seq<Op>, channels: set<string>)
    requires AllSeparated(channels) && (forall op <- ops :: On(op, channels)) && TidyRun(cfg, ops)
    ensures Housed(Run(cfg, ops), channels)
    decreases |ops|
  {
    if ops != [] {
      EndsOf(ops);
      RunKeepsHoused(cfg, Init(ops), channels);
      StepKeepsHoused(Run(cfg, Init(ops)), cfg, Last(ops), channels);
    }
  }

  function Bit(b: bool): nat {
    if b then 1 else 0
  }

  function Count(keys: seq<(string, string)>, key: (string, string)): nat {
    if keys == [] then 0 else Count(Init(keys), key) + Bit(Last(keys) == key)
  }

  function Drops(ops: seq<Op>, channel: string): nat {
    if ops == [] then 0 else Drops(Init(ops), channel) + Bit(Last(ops) == DropChannel(channel))
  }

  /** Over every run on separated channels that deletes a channel only while none of its threads
      is cached, each (channel, provider message id) starts at most one turn more often than its
      channel is deleted, also across closing and reopening threads. */
  lemma {:induction false} TurnsPerLife(cfg: Config, ops: seq<Op>, channels: set<string>, key: (string, string))
    requires AllSeparated(channels) && (forall op <- ops :: On(op, channels)) && TidyRun(cfg, ops)
    ensures Count(TurnKeys(Run(cfg, ops).turns), key) <= Drops(ops, key.0) + Bit(key in Run(cfg, ops).store.seen)
    decreases |ops|
  {
    if ops != [] {
      var s, op := Run(cfg, Init(ops)), Last(ops);
      EndsOf(ops);
      TurnsPerLife(cfg, Init(ops), channels, key);
      RunKeepsHoused(cfg, Init(ops), channels);
      if TakesTurn(s, cfg, op) {
        NewMessage(s, cfg, op.msg, op.reply, channels);
        InitSnoc(TurnKeys(s.turns), KeyOf(op.msg));
      } else {
        QuietStep(s, cfg, op, channels);
        SeenShrinksOnlyByDeletion(s, cfg, op, key);
      }
    }
  }

  lemma SeenShrinksOnlyByDeletion(s: State, cfg: Config, op: Op, key: (string, string))
    requires !TakesTurn(s, cfg, op)
    ensures Bit(key in s.store.seen) <= Bit(key in Step(s, cfg, op).store.seen) + Bit(op == DropChannel(key.0))
  {
  }

  lemma {:induction false} NothingDropped(cfg: Config, ops: seq<Op>, channels: set<string>, channel: string)
    requires forall op <- ops :: Within(op, channels)
    ensures TidyRun(cfg, ops) && Drops(ops, channel) == 0
    decreases |ops|
  {
    if ops != [] {
      EndsOf(ops);
      NothingDropped(cfg, Init(ops), channels, channel);
    }
  }

  lemma {:induction false} OnceEachIsNoDup(keys: seq<(string, string)>)
    requires forall key :: Count(keys, key) <= 1
    ensures NoDup(keys)
    decreases |keys|
  {
    if keys != [] {
      EndsOf(keys);
      forall key
        ensures Count(Init(keys), key) <= 1
      {
        assert Count(keys, key) <= 1;
      }
      OnceEachIsNoDup(Init(keys));
      forall i | 0 <= i < |Init(keys)|
        ensures Init(keys)[i] != Last(keys)
      {
        Occurring(Init(keys), i);
        assert Count(keys, Last(keys)) <= 1;
      }
    }
  }

  lemma {:induction false} Occurring(keys: seq<(string, string)>, i: nat)
    requires i < |keys|
    ensures Count(keys, keys[i]) > 0
    decreases |keys|
  {
    if i < |keys| - 1 {
      Occurring(Init(keys), i);
    }
  }

  /** Without channel deletion: at most one turn per (channel, provider message id). */
  lemma AtMostOneTurn(cfg: Config, ops: seq<Op>, channels: set<string>)
    requires AllSeparated(channels) && forall op <- ops :: Within(op, channels)
    ensures NoDup(TurnKeys(Run(cfg, ops).turns))
  {
    forall key
      ensures Count(TurnKeys(Run(cfg, ops).turns), key) <= 1
    {
      NothingDropped(cfg, ops, channels, key.0);
      TurnsPerLife(cfg, ops, channels, key);
    }
    OnceEachIsNoDup(TurnKeys(Run(cfg, ops).turns));
  }

  /** Any other step within the channels, outbound records included, changes neither. */
  lemma OtherStep(s: State, cfg: Config, op: Op, channels: set<string>)
    requires Within(op, channels)
    requires op.Ingest? ==> KeyOf(op.msg) in s.store.seen
    requires op.WorkerAppend? ==> op.rec.direction.Outbound?
    ensures Step(s, cfg, op).turns == s.turns && Step(s, cfg, op).store.seen == s.store.seen
  {
    if op.WorkerAppend? {
      assert Marks(s.store.threads, op.rec) == {};
    }
  }

  /** A message with this (channel, provider message id) arrived. */
  ghost predicate Arrived(ops: seq<Op>, key: (string, string)) {
    exists i :: 0 <= i < |ops| && ops[i].Ingest? && KeyOf(ops[i].msg) == key
  }

  lemma ArrivedSnoc(ops: seq<Op>, key: (string, string))
    requires ops != []
    ensures Arrived(ops, key) <==> Arrived(Init(ops), key) || (Last(ops).Ingest? && KeyOf(Last(ops).msg) == key)
  {
    assert Last(ops) == ops[|ops| - 1];
    assert forall i :: 0 <= i < |Init(ops)| ==> Init(ops)[i] == ops[i];
  }

  lemma {:induction false} SeenAreArrived(cfg: Config, ops: seq<Op>, channels: set<string>, key: (string, string))
    requires AllSeparated(channels) && forall op <- ops :: Within(op, channels)
    requires cfg.autoOpen.Some? && forall op <- ops :: op.WorkerAppend? ==> op.rec.direction.Outbound?
    ensures key in TurnKeys(Run(cfg, ops).turns) <==> Arrived(ops, key)
    ensures key in Run(cfg, ops).store.seen <==> Arrived(ops, key)
    decreases |ops|
  {
    if ops != [] {
      var s, op := Run(cfg, Init(ops)), Last(ops);
      EndsOf(ops);
      ArrivedSnoc(ops, key);
      SeenAreArrived(cfg, Init(ops), channels, key);
      NothingDropped(cfg, Init(ops), channels, "");
      RunKeepsHoused(cfg, Init(ops), channels);
      if op.Ingest? && KeyOf(op.msg) !in s.store.seen {
        NewMessage(s, cfg, op.msg, op.reply, channels);
      } else {
        OtherStep(s, cfg, op, channels);
      }
    }
  }

  /** Exactly one: with a default target and outbound-only workers, the turns of a run are the
      distinct (channel, provider message id) pairs that arrived, each with one turn. */
  lemma EveryMessageHasItsTurn(cfg: Config, ops: seq<Op>, channels: set<string>)
    requires AllSeparated(channels) && forall op <- ops :: Within(op, channels)
    requires cfg.autoOpen.Some? && forall op <- ops :: op.WorkerAppend? ==> op.rec.direction.Outbound?
    ensures NoDup(TurnKeys(Run(cfg, ops).turns))
    ensures forall key :: key in TurnKeys(Run(cfg, ops).turns) <==> Arrived(ops, key)
  {
    AtMostOneTurn(cfg, ops, channels);
    forall key
      ensures key in TurnKeys(Run(cfg, ops).turns) <==> Arrived(ops, key)
    {
      SeenAreArrived(cfg, ops, channels, key);
    }
  }

  // ----- Where replies go ----------------------------------------------------------

  predicate Addressed(m: Outgoing) {
    m.threadId == ForPeer(m.channel, m.peer)
  }

  /** A reply answers a turn on its own thread and channel. */
  ghost predicate Answers(m: Outgoing, turns: seq<Turn>) {
    m.replyTo.Some? ==>
      exists i :: 0 <= i < |turns|
        && turns[i].threadId == m.threadId && turns[i].channel == m.channel && turns[i].providerMsgId == m.replyTo.value
  }

  /** Cached threads sit under the id of their own channel and peer; queued messages are addressed,
      and replies belong to turns. */
  ghost predicate Filed(s: State) {
    && (forall id :: id in s.cache ==> id == ForPeer(s.cache[id].channel, s.cache[id].peer))
    && (forall m <- s.outbox :: Addressed(m) && Answers(m, s.turns))
  }

  lemma TurnKeepsFiled(s: State, msg: InboundMessage, reply: Option<Draft>)
    requires Filed(s) && ForPeer(msg.channel, msg.peer) in s.cache
    ensures Filed(TakeTurn(s, msg, reply).0)
  {
    var s' := TakeTurn(s, msg, reply).0;
    var turn := s'.turns[|s.turns|];
    forall m | m in s'.outbox
      ensures Addressed(m) && Answers(m, s'.turns)
    {
      if m in s.outbox {
        AnswersLater(m, s.turns, turn);
      } else {
        assert turn.threadId == m.threadId && turn.providerMsgId == msg.providerMsgId;
      }
    }
  }

  lemma AnswersLater(m: Outgoing, turns: seq<Turn>, turn: Turn)
    requires Answers(m, turns)
    ensures Answers(m, turns + [turn])
  {
    if m.replyTo.Some? {
      var i :| 0 <= i < |turns|
        && turns[i].threadId == m.threadId && turns[i].channel == m.channel && turns[i].providerMsgId == m.replyTo.value;
      assert (turns + [turn])[i] == turns[i];
    }
  }

  lemma SendKeepsFiled(s: State, id: string, draft: Draft)
    requires Filed(s)
    ensures Filed(Sending(s, id, draft).0)
  {
  }

  lemma StepKeepsFiled(s: State, cfg: Config, op: Op)
    requires Filed(s)
    ensures Filed(Step(s, cfg, op))
  {
    match op
    case Ingest(msg, reply) =>
      if (msg.channel, msg.providerMsgId) !in s.store.seen && FindOrOpen(s, cfg, msg).Ok? {
        TurnKeepsFiled(FindOrOpen(s, cfg, msg).value, msg, reply);
      }
    case Send(id, draft) => SendKeepsFiled(s, id, draft);
    case _ =>
  }

  /** Over every run, channel deletions and colliding channel ids included, each queued message is
      addressed to the channel and peer whose thread it is on, so its worker looks idempotency
      keys up on the right thread; and each queued reply answers a turn taken on that thread. */
  lemma {:induction false} QueuedWhereTheyBelong(cfg: Config, ops: seq<Op>)
    ensures Filed(Run(cfg, ops))
    decreases |ops|
  {
    if ops != [] {
      QueuedWhereTheyBelong(cfg, Init(ops));
      StepKeepsFiled(Run(cfg, Init(ops)), cfg, Last(ops));
    }
  }

  // ----- History and log -------------------------------------------------------------

  /** What the peer said, as the history has it. */
  function UserTexts(history: seq<Message>): seq<string> {
    if history == [] then []
    else UserTexts(Init(history)) + (if Last(history).role.User? then [Last(history).content] else [])
  }

  /** What the peer said, as the log has it. */
  function InboundTexts(recs: seq<Record>): seq<string> {
    if recs == [] then []
    else InboundTexts(Init(recs)) + (if Last(recs).direction.Inbound? then [AsText(Last(recs).content)] else [])
  }

  /** The history has the newest part of what the log has, all of it if the history is unbounded. */
  ghost predicate Mirrors(t: Thread, recs: seq<Record>) {
    exists older :: InboundTexts(recs) == older + UserTexts(t.history) && (t.historyCap == 0 ==> older == [])
  }

  ghost predicate Mirrored(s: State) {
    && (forall id :: id in s.cache ==> Mirrors(s.cache[id], MessagesOf(s.store, id)))
    && (forall id :: id !in s.cache ==> InboundTexts(MessagesOf(s.store, id)) == [])
  }

  lemma {:induction false} UserTextsAppend(a: seq<Message>, b: seq<Message>)
    ensures UserTexts(a + b) == UserTexts(a) + UserTexts(b)
    decreases |b|
  {
    if b == [] {
      assert a + b == a;
    } else {
      UserTextsAppend(a, Init(b));
      EndsOf(b);
      Assoc(a, Init(b), [Last(b)]);
      InitSnoc(a + Init(b), Last(b));
      Assoc(UserTexts(a), UserTexts(Init(b)), if Last(b).role.User? then [Last(b).content] else []);
    }
  }

  /** A push drops texts from the front only, none if the history is unbounded. */
  lemma PushedTexts(t: Thread, role: Role, text: string) returns (dropped: seq<string>)
    ensures UserTexts(t.history) + (if role.User? then [text] else []) == dropped + UserTexts(Pushed(t, role, text).history)
    ensures t.historyCap == 0 ==> dropped == []
  {
    var h := t.history + [Message(role, text)];
    InitSnoc(t.history, Message(role, text));
    var kept := Pushed(t, role, text).history;
    if kept == h {
      dropped := [];
      assert [] + UserTexts(kept) == UserTexts(kept);
    } else {
      var front := h[..|h| - t.historyCap];
      assert h == front + kept;
      UserTextsAppend(front, kept);
      dropped := UserTexts(front);
    }
  }

  lemma HeardMirrors(t: Thread, recs: seq<Record>, rec: Record)
    requires Mirrors(t, recs) && rec.direction.Inbound?
    ensures Mirrors(Pushed(t, User, AsText(rec.content)), recs + [rec])
  {
    var older :| InboundTexts(recs) == older + UserTexts(t.history) && (t.historyCap == 0 ==> older == []);
    var text := AsText(rec.content);
    var dropped := PushedTexts(t, User, text);
    var now := UserTexts(Pushed(t, User, text).history);
    InitSnoc(recs, rec);
    Assoc(older, UserTexts(t.history), [text]);
    Assoc(older, dropped, now);
    assert InboundTexts(recs + [rec]) == (older + dropped) + now;
  }

  lemma RepliedMirrors(t: Thread, recs: seq<Record>, text: string)
    requires Mirrors(t, recs)
    ensures Mirrors(Pushed(t, Assistant, text), recs)
  {
    var older :| InboundTexts(recs) == older + UserTexts(t.history) && (t.historyCap == 0 ==> older == []);
    var dropped := PushedTexts(t, Assistant, text);
    var now := UserTexts(Pushed(t, Assistant, text).history);
    assert UserTexts(t.history) + [] == UserTexts(t.history);
    Assoc(older, dropped, now);
    assert InboundTexts(recs) == (older + dropped) + now;
  }

  lemma NewMirrors(t: Thread, recs: seq<Record>)
    requires t.history == [] && InboundTexts(recs) == []
    ensures Mirrors(t, recs)
  {
    assert InboundTexts(recs) == [] + UserTexts(t.history);
  }

  lemma OutboundIsNoText(recs: seq<Record>, rec: Record)
    requires rec.direction.Outbound?
    ensures InboundTexts(recs + [rec]) == InboundTexts(recs)
  {
    InitSnoc(recs, rec);
  }

  /** No channel deletion, and the records that workers append are outbound. */
  predicate Plain(op: Op) {
    !op.DropChannel? && (op.WorkerAppend? ==> op.rec.direction.Outbound?)
  }

  lemma TurnMirrors(s: State, msg: InboundMessage, reply: Option<Draft>)
    requires Mirrored(s) && ForPeer(msg.channel, msg.peer) in s.cache
    ensures Mirrored(TakeTurn(s, msg, reply).0)
  {
    var id := ForPeer(msg.channel, msg.peer);
    var rec, s' := InboundRecord(id, msg), TakeTurn(s, msg, reply).0;
    var heard := Pushed(s.cache[id], User, AsText(msg.content));
    HeardMirrors(s.cache[id], MessagesOf(s.store, id), rec);
    if reply.Some? {
      RepliedMirrors(heard, MessagesOf(s.store, id) + [rec], AsText(reply.value.content));
    }
    TurnTouches(s, msg, reply, id);
    OneThreadMirrors(s, s', id);
  }

  /** The thread after the turn. */
  function Spoken(t: Thread, msg: InboundMessage, reply: Option<Draft>): Thread {
    var heard := Pushed(t, User, AsText(msg.content));
    if reply.None? then heard else Pushed(heard, Assistant, AsText(reply.value.content))
  }

  /** A turn changes one thread of the cache and the messages of that thread. */
  lemma TurnTouches(s: State, msg: InboundMessage, reply: Option<Draft>, id: string)
    requires id == ForPeer(msg.channel, msg.peer) && id in s.cache
    ensures TakeTurn(s, msg, reply).0.cache == s.cache[id := Spoken(s.cache[id], msg, reply)]
    ensures TakeTurn(s, msg, reply).0.store.messages
         == s.store.messages[id := MessagesOf(s.store, id) + [InboundRecord(id, msg)]]
  {
  }

  lemma OneThreadMirrors(s: State, s': State, id: string)
    requires Mirrored(s) && id in s.cache && s'.cache.Keys == s.cache.Keys
    requires forall k :: k != id ==> MessagesOf(s'.store, k) == MessagesOf(s.store, k)
    requires forall k :: k != id && k in s.cache ==> s'.cache[k] == s.cache[k]
    requires Mirrors(s'.cache[id], MessagesOf(s'.store, id))
    ensures Mirrored(s')
  {
  }

  lemma IngestMirrors(s: State, cfg: Config, msg: InboundMessage, reply: Option<Draft>)
    requires Mirrored(s)
    ensures Mirrored(Hearing(s, cfg, msg, reply).0)
  {
    if (msg.channel, msg.providerMsgId) !in s.store.seen && FindOrOpen(s, cfg, msg).Ok? {
      var ready := FindOrOpen(s, cfg, msg).value;
      OpenedMirrors(s, ready, ForPeer(msg.channel, msg.peer));
      TurnMirrors(ready, msg, reply);
    }
  }

  lemma CloseMirrors(s: State, cfg: Config, id: string)
    requires Mirrored(s)
    ensures Mirrored(Step(s, cfg, Close(id)))
  {
    var s' := Step(s, cfg, Close(id));
    assert forall k :: k != id ==> MessagesOf(s'.store, k) == MessagesOf(s.store, k);
  }

  lemma AppendMirrors(s: State, cfg: Config, rec: Record)
    requires Mirrored(s) && rec.direction.Outbound?
    ensures Mirrored(Step(s, cfg, WorkerAppend(rec)))
  {
    var s' := Step(s, cfg, WorkerAppend(rec));
    OutboundIsNoText(MessagesOf(s.store, rec.threadId), rec);
    assert forall k :: InboundTexts(MessagesOf(s'.store, k)) == InboundTexts(MessagesOf(s.store, k));
    forall k | k in s'.cache
      ensures Mirrors(s'.cache[k], MessagesOf(s'.store, k))
    {
      assert Mirrors(s.cache[k], MessagesOf(s.store, k));
    }
  }

  lemma StepMirrors(s: State, cfg: Config, op: Op)
    requires Mirrored(s) && Plain(op)
    ensures Mirrored(Step(s, cfg, op))
  {
    match op
    case Ingest(msg, reply) => IngestMirrors(s, cfg, msg, reply);
    case Open(channel, peer, target) => OpenedMirrors(s, Step(s, cfg, op), ForPeer(channel, peer));
    case Close(id) => CloseMirrors(s, cfg, id);
    case WorkerAppend(rec) => AppendMirrors(s, cfg, rec);
    case _ =>
  }

  /** A cached thread may get another target; a new one starts with an empty history. */
  lemma OpenedMirrors(s: State, s': State, id: string)
    requires Mirrored(s) && s'.store.messages == s.store.messages
    requires s'.cache.Keys == s.cache.Keys || s'.cache.Keys == s.cache.Keys + {id}
    requires forall k :: k in s.cache && k in s'.cache ==>
      s'.cache[k].history == s.cache[k].history && s'.cache[k].historyCap == s.cache[k].historyCap
    requires id in s'.cache && id !in s.cache ==> s'.cache[id].history == []
    ensures Mirrored(s')
  {
    forall k | k in s'.cache
      ensures Mirrors(s'.cache[k], MessagesOf(s'.store, k))
    {
      if k in s.cache {
        assert Mirrors(s.cache[k], MessagesOf(s.store, k));
      } else {
        NewMirrors(s'.cache[k], MessagesOf(s.store, k));
      }
    }
  }

  /** History and log agree: over every run without channel deletion, what the peer said according
      to a cached thread's history is the newest part, in order, of what the log of that thread
      holds, and all of it if the history is unbounded. */
  lemma {:induction false} HistoryMirrorsLog(cfg: Config, ops: seq<Op>)
    requires forall op <- ops :: Plain(op)
    ensures Mirrored(Run(cfg, ops))
    decreases |ops|
  {
    if ops != [] {
      EndsOf(ops);
      HistoryMirrorsLog(cfg, Init(ops));
      StepMirrors(Run(cfg, Init(ops)), cfg, Last(ops));
    }
  }

  // ----- Where the bound ends ------------------------------------------------------

  /** A run on two channels whose thread ids collide: the first opens the thread, then one and
      the same message arrives twice on the second. */
  function CollisionRun(c1: string, c2: string, target: Target): seq<Op>
    requires c1 + "#" <= c2
  {
    var (p1, p2) := CollidingPeers(c1, c2);
    var msg := Ingest(InboundMessage(c2, p2, "m", Text("hello")), None);
    [Attach(ChannelSpec(c1, Capabilities(true, true)), true), Open(c1, p1, target), msg, msg]
  }

  lemma CollisionTakesTwoTurns(cfg: Config, c1: string, c2: string, target: Target)
    requires c1 + "#" <= c2
    ensures !NoDup(TurnKeys(Run(cfg, CollisionRun(c1, c2, target)).turns))
  {
    var ops := CollisionRun(c1, c2, target);
    var (p1, p2) := CollidingPeers(c1, c2);
    var id := ForPeer(c1, p1);
    assert id == ForPeer(c2, p2);
    assert Init(ops) == ops[..3] && Init(ops[..3]) == ops[..2] && Init(ops[..2]) == ops[..1] && Init(ops[..1]) == [];
    var s1, s2, s3 := Run(cfg, ops[..1]), Run(cfg, ops[..2]), Run(cfg, ops[..3]);
    assert Run(cfg, []) == Start && Last(ops[..1]) == ops[0] && Last(ops[..2]) == ops[1] && Last(ops[..3]) == ops[2];
    assert s1.providers == {c1} && s1.store.seen == {};
    assert id in s2.cache && s2.store.threads[id].channel == c1 && s2.store.seen == {};
    assert s3.store.seen == {(c1, "m")} && |s3.turns| == 1;
    var s4 := Run(cfg, ops);
    assert |s4.turns| == 2;
    assert TurnKeys(s4.turns)[0] == (c2, "m") && TurnKeys(s4.turns)[1] == (c2, "m");
  }

  /** Exactly when the deduplication holds: every run on a set of channels takes each message at
      most once if and only if no channel id followed by `#` starts another one. */
  lemma DedupIffSeparated(cfg: Config, channels: set<string>)
    ensures (forall ops: seq<Op> | forall op <- ops :: Within(op, channels) :: NoDup(TurnKeys(Run(cfg, ops).turns)))
       <==> AllSeparated(channels)
  {
    if AllSeparated(channels) {
      forall ops: seq<Op> | forall op <- ops :: Within(op, channels)
        ensures NoDup(TurnKeys(Run(cfg, ops).turns))
      {
        AtMostOneTurn(cfg, ops, channels);
      }
    } else {
      var c1, c2 :| c1 in channels && c2 in channels && !Separated(c1, c2);
      var a, b := if c1 + "#" <= c2 then c1 else c2, if c1 + "#" <= c2 then c2 else c1;
      var ops := CollisionRun(a, b, CallableTarget("t"));
      CollisionTakesTwoTurns(cfg, a, b, CallableTarget("t"));
      assert forall op <- ops :: Within(op, channels);
    }
  }

  /** Exactly when deduplication outlives the deletion of a channel: a message that arrives twice
      afterwards takes two turns if and only if its thread was cached at the deletion. */
  lemma RepeatsAfterDeletionIff(s: State, cfg: Config, msg: InboundMessage, reply: Option<Draft>, channels: set<string>)
    requires AllSeparated(channels) && Housed(s, channels) && msg.channel in channels && cfg.autoOpen.Some?
    ensures var s1 := Step(s, cfg, DropChannel(msg.channel));
      var s2 := Step(s1, cfg, Ingest(msg, reply));
      var s3 := Step(s2, cfg, Ingest(msg, reply));
      && TurnKeys(s2.turns) == TurnKeys(s.turns) + [KeyOf(msg)]
      && (TurnKeys(s3.turns) == TurnKeys(s.turns) + [KeyOf(msg), KeyOf(msg)] <==> ForPeer(msg.channel, msg.peer) in s.cache)
      && (s3 == s2 <==> ForPeer(msg.channel, msg.peer) !in s.cache)
  {
    var id := ForPeer(msg.channel, msg.peer);
    var s1 := Step(s, cfg, DropChannel(msg.channel));
    var s2 := Step(s1, cfg, Ingest(msg, reply));
    var s3 := Step(s2, cfg, Ingest(msg, reply));
    OneTurn(s1, cfg, msg, reply);
    if id in s.cache {
      ForPeerInjective(s.cache[id].channel, s.cache[id].peer, msg.channel, msg.peer);
      assert id !in s1.store.threads;
      OneTurn(s2, cfg, msg, reply);
      assert [KeyOf(msg)] + [KeyOf(msg)] == [KeyOf(msg), KeyOf(msg)];
      Assoc(TurnKeys(s.turns), [KeyOf(msg)], [KeyOf(msg)]);
    }
  }

  lemma OneTurn(s: State, cfg: Config, msg: InboundMessage, reply: Option<Draft>)
    requires cfg.autoOpen.Some? && KeyOf(msg) !in s.store.seen
    ensures var s' := Step(s, cfg, Ingest(msg, reply));
      var id := ForPeer(msg.channel, msg.peer);
      && TurnKeys(s'.turns) == TurnKeys(s.turns) + [KeyOf(msg)] && id in s'.cache
      && (id !in s.cache ==> KeyOf(msg) in s'.store.seen)
      && (id in s.cache && id !in s.store.threads ==> s'.store.seen == s.store.seen && s'.store.threads == s.store.threads)
  {
    assert Marks(map[], InboundRecord("", msg)) == {};
  }

  /** Deleting a channel in the store while a thread of it stays cached ends deduplication: the
      same message then takes a turn every time it arrives. */
  lemma DeletedChannelForgets(cfg: Config, channel: string, peer: string, target: Target, n: nat)
    ensures var msg := Ingest(InboundMessage(channel, peer, "m", Text("hello")), None);
      var ops := [Attach(ChannelSpec(channel, Capabilities(true, true)), true), Open(channel, peer, target), DropChannel(channel)];
      |Run(cfg, ops + Repeat(msg, n)).turns| == n
  {
    var msg := Ingest(InboundMessage(channel, peer, "m", Text("hello")), None);
    var ops := [Attach(ChannelSpec(channel, Capabilities(true, true)), true), Open(channel, peer, target), DropChannel(channel)];
    Forgetful(cfg, channel, peer, ops, msg, n);
  }

  function Repeat<T>(x: T, n: nat): seq<T> {
    seq(n, _ => x)
  }

  lemma {:induction false} Forgetful(cfg: Config, channel: string, peer: string, ops: seq<Op>, msg: Op, n: nat)
    requires |ops| == 3 && ops[0].Attach? && ops[0].started && ops[0].spec.id == channel && ops[1].Open? && ops[1].channel == channel
    requires ops[1].peer == peer && ops[2] == DropChannel(channel)
    requires msg.Ingest? && msg.msg.channel == channel && msg.msg.peer == peer && msg.reply.None?
    ensures var s := Run(cfg, ops + Repeat(msg, n));
      |s.turns| == n && s.store.seen == {} && ForPeer(channel, peer) in s.cache && s.store.threads == map[]
  {
    if n == 0 {
      assert ops + Repeat(msg, 0) == ops;
      assert Init(ops) == ops[..2] && Init(ops[..2]) == ops[..1] && Init(ops[..1]) == [];
      var s1, s2 := Run(cfg, ops[..1]), Run(cfg, ops[..2]);
      assert Run(cfg, []) == Start && Last(ops[..1]) == ops[0] && Last(ops[..2]) == ops[1];
      assert s1.providers == {channel} && s1.store.threads == map[];
      assert s2.store.threads.Keys == {ForPeer(channel, peer)};
    } else {
      Forgetful(cfg, channel, peer, ops, msg, n - 1);
      assert Init(ops + Repeat(msg, n)) == ops + Repeat(msg, n - 1);
      assert Last(ops + Repeat(msg, n)) == msg;
    }
  }
}
