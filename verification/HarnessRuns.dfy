/** Runs of the channel harness read off their operations: who is attached, which thread is bound to
    which target, which turns are taken, what is queued, said and stored. */
module HarnessRuns {
  import opened Prelude
  import opened MessageContent
  import opened ChannelIds
  import opened ChannelStore
  import opened ChannelHarness

  // ----- One operation ----------------------------------------------------------------

  /** The message is new, and its thread is open or can be opened. */
  predicate Accepts(s: State, cfg: Config, msg: InboundMessage) {
    && (msg.channel, msg.providerMsgId) !in s.store.seen
    && (ForPeer(msg.channel, msg.peer) in s.cache || cfg.autoOpen.Some?)
  }

  /** The operation takes this turn: on the message's own thread, with the thread's target. */
  predicate Takes(s: State, cfg: Config, op: Op, turn: Turn) {
    && TakesOne(s, cfg, op)
    && var id := ForPeer(op.msg.channel, op.msg.peer);
       turn == Turn(id, op.msg.channel, op.msg.providerMsgId,
                    if id in s.cache then s.cache[id].target else cfg.autoOpen.value)
  }

  /** The operation takes a turn. */
  predicate TakesOne(s: State, cfg: Config, op: Op) {
    op.Ingest? && Accepts(s, cfg, op.msg)
  }

  /** Every leaf of the content is enabled. */
  predicate Permits(caps: Capabilities, content: Content) {
    forall leaf <- Leaves(content) :: Enabled(leaf, caps)
  }

  /** The admin send goes through: the thread is open, its channel is stored, permits the content, and
      is attached. */
  predicate Sendable(s: State, id: string, content: Content) {
    && id in s.cache && s.cache[id].channel in s.store.channels && s.cache[id].channel in s.providers
    && Permits(s.store.channels[s.cache[id].channel].capabilities, content)
  }

  /** The operation queues this message: what the target of an accepted message replied, for the peer
      that sent it and in reply to it; or what an administrator sends, for the thread's own peer. */
  predicate Queues(s: State, cfg: Config, op: Op, m: Outgoing) {
    match op
    case Ingest(msg, Some(draft)) =>
      && Accepts(s, cfg, msg) && msg.channel in s.providers
      && m.channel == msg.channel && m.peer == msg.peer && m.threadId == ForPeer(msg.channel, msg.peer)
      && m.replyTo == Some(msg.providerMsgId) && m.content == draft.content && m.key == draft.key
    case Send(id, draft) =>
      && Sendable(s, id, draft.content)
      && m.channel == s.cache[id].channel && m.peer == s.cache[id].peer && m.threadId == id
      && m.replyTo == None && m.content == draft.content && m.key == draft.key
    case _ => false
  }

  /** What the operation does to the store. */
  function StoreOps(s: State, cfg: Config, op: Op): seq<StoreOp> {
    match op
    case Attach(spec, _) => if spec.id in s.providers then [] else [UpsertChannel(spec)]
    case Detach(_) => []
    case Open(channel, peer, target) =>
      if channel in s.providers
      then [UpsertThread(Thread(ForPeer(channel, peer), channel, peer, target, [], cfg.historyCap))] else []
    case Close(id) => [StoreOp.DeleteThread(id)]
    case Ingest(msg, _) =>
      var id := ForPeer(msg.channel, msg.peer);
      var rec := Append(Record(id, Inbound, msg.content, Some(msg.providerMsgId), None));
      if !Accepts(s, cfg, msg) then []
      else if id in s.cache then [rec]
      else [UpsertThread(Thread(id, msg.channel, msg.peer, cfg.autoOpen.value, [], cfg.historyCap)), rec]
    case Send(_, _) => []
    case WorkerAppend(rec) => [Append(rec)]
    case DropChannel(channel) => [StoreOp.DeleteChannel(channel)]
  }

  lemma StepTurns(s: State, cfg: Config, op: Op) returns (taken: seq<Turn>)
    ensures Step(s, cfg, op).turns == s.turns + taken
    ensures |taken| <= 1 && (taken != [] ==> Takes(s, cfg, op, taken[0]))
    ensures taken == [] ==> !TakesOne(s, cfg, op)
  {
    taken := Step(s, cfg, op).turns[|s.turns|..];
  }

  lemma FirstDisabled(content: Content, caps: Capabilities)
    ensures CheckCapabilities(content, caps).Ok? <==> Permits(caps, content)
  {
    CheckDecidesLeaves(content, caps);
  }

  lemma StepQueue(s: State, cfg: Config, op: Op) returns (queued: seq<Outgoing>)
    ensures Step(s, cfg, op).outbox == s.outbox + queued
    ensures |queued| <= 1 && (queued != [] ==> Queues(s, cfg, op, queued[0]))
    ensures queued == [] ==> forall m :: !Queues(s, cfg, op, m)
  {
    queued := Step(s, cfg, op).outbox[|s.outbox|..];
    if op.Send? && op.threadId in s.cache && s.cache[op.threadId].channel in s.store.channels {
      FirstDisabled(op.draft.content, s.store.channels[s.cache[op.threadId].channel].capabilities);
    }
  }

  lemma ApplyTwo(s: StoreState, a: StoreOp, b: StoreOp)
    ensures ApplyAll(s, [a]) == Apply(s, a) && ApplyAll(s, [a, b]) == Apply(Apply(s, a), b)
  {
    assert Init([a]) == [] && Init([a, b]) == [a];
  }

  lemma StoreOpsApply(s: State, cfg: Config, op: Op)
    ensures Step(s, cfg, op).store == ApplyAll(s.store, StoreOps(s, cfg, op))
  {
    var ops := StoreOps(s, cfg, op);
    if |ops| == 2 {
      ApplyTwo(s.store, ops[0], ops[1]);
      assert ops == [ops[0], ops[1]];
    } else if |ops| == 1 {
      ApplyTwo(s.store, ops[0], ops[0]);
      assert ops == [ops[0]];
    }
  }

  // ----- Turns and queue of a run ----------------------------------------------------------

  /** The state in which operation `i` of the run finds the harness. */
  function At(cfg: Config, ops: seq<Op>, i: nat): State
    requires i <= |ops|
  {
    Run(cfg, ops[..i])
  }

  /** Positions in ascending order. */
  predicate Ascending(from: seq<nat>) {
    forall k, l :: 0 <= k < l < |from| ==> from[k] < from[l]
  }

  /** The states in which the operations of the run find the harness. */
  function States(cfg: Config, ops: seq<Op>): seq<State> {
    seq(|ops|, i requires 0 <= i < |ops| => At(cfg, ops, i))
  }

  /** The turns are those taken by the operations at the given positions, in order, and no other operation
      takes one. */
  ghost predicate TurnsFrom(states: seq<State>, cfg: Config, ops: seq<Op>, turns: seq<Turn>, from: seq<nat>) {
    && |states| == |ops| && Ascending(from) && |from| == |turns|
    && (forall k :: 0 <= k < |from| ==> from[k] < |ops| && Takes(states[from[k]], cfg, ops[from[k]], turns[k]))
    && (forall i: nat :: i < |ops| && TakesOne(states[i], cfg, ops[i]) ==> i in from)
  }

  ghost predicate QueueFrom(states: seq<State>, cfg: Config, ops: seq<Op>, outbox: seq<Outgoing>, from: seq<nat>) {
    && |states| == |ops| && Ascending(from) && |from| == |outbox|
    && (forall k :: 0 <= k < |from| ==> from[k] < |ops| && Queues(states[from[k]], cfg, ops[from[k]], outbox[k]))
    && (forall i: nat, m :: i < |ops| && Queues(states[i], cfg, ops[i], m) ==> i in from)
  }

  lemma PrefixStates(cfg: Config, ops: seq<Op>)
    requires ops != []
    ensures At(cfg, ops, |ops| - 1) == Run(cfg, Init(ops))
    ensures forall i: nat :: i < |ops| - 1 ==> At(cfg, ops, i) == At(cfg, Init(ops), i) && Init(ops)[i] == ops[i]
    ensures States(cfg, ops) == States(cfg, Init(ops)) + [Run(cfg, Init(ops))]
  {
    forall i: nat | i < |ops| - 1
      ensures At(cfg, ops, i) == At(cfg, Init(ops), i)
    {
      assert Init(ops)[..i] == ops[..i];
    }
  }

  lemma TurnsSnoc(states: seq<State>, cfg: Config, ops: seq<Op>, turns: seq<Turn>, from: seq<nat>, s: State, op: Op, taken: seq<Turn>)
    requires TurnsFrom(states, cfg, ops, turns, from) && |taken| <= 1
    requires if taken == [] then !TakesOne(s, cfg, op) else Takes(s, cfg, op, taken[0])
    ensures TurnsFrom(states + [s], cfg, ops + [op], turns + taken, from + if taken == [] then [] else [|ops|])
  {
    var from', ops' := from + if taken == [] then [] else [|ops|], ops + [op];
    forall i: nat | i < |ops'| && TakesOne((states + [s])[i], cfg, ops'[i])
      ensures i in from'
    {
      if i < |ops| {
        assert ops'[i] == ops[i] && i in from;
      } else {
        assert from'[|from|] == |ops|;
      }
    }
  }

  /** Over every run: the turns taken are, in order, one for each arriving message that is new and finds
      or opens its thread. */
  lemma {:induction false} TurnsReadTheRun(cfg: Config, ops: seq<Op>) returns (from: seq<nat>)
    ensures TurnsFrom(States(cfg, ops), cfg, ops, Run(cfg, ops).turns, from)
    decreases |ops|
  {
    from := [];
    if ops != [] {
      var prev, s := Init(ops), Run(cfg, Init(ops));
      var before := TurnsReadTheRun(cfg, prev);
      var taken := StepTurns(s, cfg, Last(ops));
      PrefixStates(cfg, ops);
      EndsOf(ops);
      TurnsSnoc(States(cfg, prev), cfg, prev, s.turns, before, s, Last(ops), taken);
      from := before + if taken == [] then [] else [|prev|];
    }
  }

  lemma QueueSnoc(states: seq<State>, cfg: Config, ops: seq<Op>, outbox: seq<Outgoing>, from: seq<nat>, s: State, op: Op,
                  queued: seq<Outgoing>)
    requires QueueFrom(states, cfg, ops, outbox, from) && |queued| <= 1
    requires if queued == [] then forall m :: !Queues(s, cfg, op, m) else Queues(s, cfg, op, queued[0])
    ensures QueueFrom(states + [s], cfg, ops + [op], outbox + queued, from + if queued == [] then [] else [|ops|])
  {
    var from', ops' := from + if queued == [] then [] else [|ops|], ops + [op];
    forall i: nat, m | i < |ops'| && Queues((states + [s])[i], cfg, ops'[i], m)
      ensures i in from'
    {
      if i < |ops| {
        assert ops'[i] == ops[i] && i in from;
      } else {
        assert from'[|from|] == |ops|;
      }
    }
  }

  /** Over every run the queue is, in order, exactly this: for each accepted message on an attached
      channel whose target replied, that reply, under the key made up for it, for the peer and in answer
      to the message that it replies to; and for each admin send that goes through, what it sends. Each
      of them is queued once, and nothing else is. */
  lemma {:induction false} QueueReadsTheRun(cfg: Config, ops: seq<Op>) returns (from: seq<nat>)
    ensures QueueFrom(States(cfg, ops), cfg, ops, Run(cfg, ops).outbox, from)
    decreases |ops|
  {
    from := [];
    if ops != [] {
      var prev, s := Init(ops), Run(cfg, Init(ops));
      var before := QueueReadsTheRun(cfg, prev);
      var queued := StepQueue(s, cfg, Last(ops));
      PrefixStates(cfg, ops);
      EndsOf(ops);
      QueueSnoc(States(cfg, prev), cfg, prev, s.outbox, before, s, Last(ops), queued);
      from := before + if queued == [] then [] else [|prev|];
    }
  }

  // ----- Attached channels and bound targets -----------------------------------------------------

  /** Before operation `n` a provider was attached and started that was not detached since. */
  predicate AttachedBy(ops: seq<Op>, n: nat, channel: string, j: nat) {
    && j < n <= |ops| && ops[j].Attach? && ops[j].started && ops[j].spec.id == channel
    && forall k :: j < k < n ==> ops[k] != Detach(channel)
  }

  ghost predicate Attached(ops: seq<Op>, n: nat, channel: string) {
    exists j: nat :: AttachedBy(ops, n, channel, j)
  }

  lemma AttachedBySnoc(prev: seq<Op>, op: Op, channel: string, j: nat)
    ensures AttachedBy(prev + [op], |prev| + 1, channel, j)
       <==> if j == |prev| then op.Attach? && op.started && op.spec.id == channel
            else AttachedBy(prev, |prev|, channel, j) && op != Detach(channel)
  {
    var ops := prev + [op];
    assert ops[|prev|] == op && forall k :: 0 <= k < |prev| ==> ops[k] == prev[k];
  }

  /** A channel is attached exactly when a provider on it was attached and started, and not detached
      since. */
  lemma {:induction false} ProvidersReadTheRun(cfg: Config, ops: seq<Op>, channel: string)
    ensures channel in Run(cfg, ops).providers <==> Attached(ops, |ops|, channel)
    decreases |ops|
  {
    if ops != [] {
      var prev, op := Init(ops), Last(ops);
      EndsOf(ops);
      ProvidersReadTheRun(cfg, prev, channel);
      forall j: nat
        ensures AttachedBy(ops, |ops|, channel, j)
           <==> if j == |prev| then op.Attach? && op.started && op.spec.id == channel
                else AttachedBy(prev, |prev|, channel, j) && op != Detach(channel)
      {
        AttachedBySnoc(prev, op, channel, j);
      }
      if op.Attach? && op.started && op.spec.id == channel {
        assert AttachedBy(ops, |ops|, channel, |prev|);
      } else if Attached(prev, |prev|, channel) {
        var j: nat :| AttachedBy(prev, |prev|, channel, j);
        assert op != Detach(channel) ==> AttachedBy(ops, |ops|, channel, j);
      }
    }
  }

  /** The operation binds the thread to its own target, on an attached channel. */
  predicate Binds(s: State, op: Op, id: string) {
    op.Open? && op.channel in s.providers && ForPeer(op.channel, op.peer) == id
  }

  /** The operation opens the thread if it is not open. */
  predicate Opens(s: State, cfg: Config, op: Op, id: string) {
    Binds(s, op, id) || (op.Ingest? && Accepts(s, cfg, op.msg) && ForPeer(op.msg.channel, op.msg.peer) == id)
  }

  /** Operation `j` opens the thread, and it was not closed since. */
  predicate OpenSince(states: seq<State>, cfg: Config, ops: seq<Op>, id: string, j: nat) {
    && |states| == |ops| && j < |ops| && Opens(states[j], cfg, ops[j], id)
    && forall k :: j < k < |ops| ==> ops[k] != Close(id)
  }

  /** Operation `j` is the latest that binds the thread, and it was not closed since. */
  predicate BoundSince(states: seq<State>, ops: seq<Op>, id: string, j: nat) {
    && |states| == |ops| && j < |ops| && Binds(states[j], ops[j], id)
    && forall k :: j < k < |ops| ==> ops[k] != Close(id) && !Binds(states[k], ops[k], id)
  }

  lemma OpenSinceSnoc(states: seq<State>, cfg: Config, ops: seq<Op>, s: State, op: Op, id: string, j: nat)
    requires |states| == |ops|
    ensures OpenSince(states + [s], cfg, ops + [op], id, j)
       <==> if j == |ops| then Opens(s, cfg, op, id) else OpenSince(states, cfg, ops, id, j) && op != Close(id)
  {
    var ops' := ops + [op];
    assert ops'[|ops|] == op && forall k :: 0 <= k < |ops| ==> ops'[k] == ops[k];
  }

  lemma BoundSinceSnoc(states: seq<State>, ops: seq<Op>, s: State, op: Op, id: string, j: nat)
    requires |states| == |ops|
    ensures BoundSince(states + [s], ops + [op], id, j)
       <==> if j == |ops| then Binds(s, op, id)
            else BoundSince(states, ops, id, j) && op != Close(id) && !Binds(s, op, id)
  {
    var states', ops' := states + [s], ops + [op];
    assert ops'[|ops|] == op && states'[|ops|] == s;
    assert forall k :: 0 <= k < |ops| ==> ops'[k] == ops[k] && states'[k] == states[k];
  }

  /** How one operation changes the cache, for one thread. */
  lemma StepCache(s: State, cfg: Config, op: Op, id: string)
    ensures var s' := Step(s, cfg, op);
      && (id in s'.cache <==> Opens(s, cfg, op, id) || (id in s.cache && op != Close(id)))
      && (id in s'.cache ==>
            s'.cache[id].target == if Binds(s, op, id) then op.target else if id in s.cache then s.cache[id].target else cfg.autoOpen.value)
      && (id in s'.cache && id !in s.cache && !Binds(s, op, id) ==> cfg.autoOpen.Some?)
  {
  }

  /** A thread is open exactly when it was opened, by an administrator or by a message, and not closed
      since. */
  lemma {:induction false} CacheReadsTheRun(cfg: Config, ops: seq<Op>, id: string)
    ensures id in Run(cfg, ops).cache <==> exists j: nat :: OpenSince(States(cfg, ops), cfg, ops, id, j)
    decreases |ops|
  {
    if ops != [] {
      var prev, op, s := Init(ops), Last(ops), Run(cfg, Init(ops));
      var states := States(cfg, prev);
      CacheReadsTheRun(cfg, prev, id);
      StepCache(s, cfg, op, id);
      PrefixStates(cfg, ops);
      EndsOf(ops);
      forall j: nat
        ensures OpenSince(states + [s], cfg, prev + [op], id, j)
           <==> if j == |prev| then Opens(s, cfg, op, id) else OpenSince(states, cfg, prev, id, j) && op != Close(id)
      {
        OpenSinceSnoc(states, cfg, prev, s, op, id, j);
      }
      if Opens(s, cfg, op, id) {
        assert OpenSince(states + [s], cfg, prev + [op], id, |prev|);
      } else if id in s.cache {
        var j: nat :| OpenSince(states, cfg, prev, id, j);
        assert op != Close(id) ==> OpenSince(states + [s], cfg, prev + [op], id, j);
      }
    }
  }

  /** What binds the thread last decides its target. */
  ghost predicate TargetIs(states: seq<State>, cfg: Config, ops: seq<Op>, s: State, id: string) {
    && (forall j: nat :: BoundSince(states, ops, id, j) ==> id in s.cache && s.cache[id].target == ops[j].target)
    && (id in s.cache && (forall j: nat :: !BoundSince(states, ops, id, j)) ==> cfg.autoOpen == Some(s.cache[id].target))
  }

  lemma TargetSnoc(states: seq<State>, cfg: Config, ops: seq<Op>, s: State, op: Op, id: string)
    requires |states| == |ops| && TargetIs(states, cfg, ops, s, id)
    ensures TargetIs(states + [s], cfg, ops + [op], Step(s, cfg, op), id)
  {
    StepCache(s, cfg, op, id);
    forall j: nat
      ensures BoundSince(states + [s], ops + [op], id, j)
         <==> if j == |ops| then Binds(s, op, id)
              else BoundSince(states, ops, id, j) && op != Close(id) && !Binds(s, op, id)
    {
      BoundSinceSnoc(states, ops, s, op, id, j);
    }
    assert Binds(s, op, id) ==> BoundSince(states + [s], ops + [op], id, |ops|);
    if id in s.cache && exists j: nat :: BoundSince(states, ops, id, j) {
      var j: nat :| BoundSince(states, ops, id, j);
      assert op != Close(id) && !Binds(s, op, id) ==> BoundSince(states + [s], ops + [op], id, j);
    }
  }

  /** The target of an open thread is the one it was bound to last, also if that was while it was open;
      a thread that no administrator bound since it was last closed has the default target. */
  lemma {:induction false} TargetReadsTheRun(cfg: Config, ops: seq<Op>, id: string)
    ensures TargetIs(States(cfg, ops), cfg, ops, Run(cfg, ops), id)
    decreases |ops|
  {
    if ops != [] {
      TargetReadsTheRun(cfg, Init(ops), id);
      PrefixStates(cfg, ops);
      EndsOf(ops);
      TargetSnoc(States(cfg, Init(ops)), cfg, Init(ops), Run(cfg, Init(ops)), Last(ops), id);
    }
  }

  // ----- Histories and the store ----------------------------------------------------------------------

  /** What is said in a turn: what the peer wrote, and the reply, if the target gave one. */
  function Spoke(msg: InboundMessage, reply: Option<Draft>): seq<Message> {
    [Message(User, AsText(msg.content))] + if reply.Some? then [Message(Assistant, AsText(reply.value.content))] else []
  }

  /** What was said on the thread, in order, since it was last closed. */
  function Said(cfg: Config, ops: seq<Op>, id: string): seq<Message> {
    if ops == [] then []
    else
      var said, op := Said(cfg, Init(ops), id), Last(ops);
      if op == Close(id) then []
      else if op.Ingest? && Accepts(Run(cfg, Init(ops)), cfg, op.msg) && ForPeer(op.msg.channel, op.msg.peer) == id
      then said + Spoke(op.msg, op.reply)
      else said
  }

  lemma PushedIsNewest(t: Thread, said: seq<Message>, role: Role, text: string)
    requires t.history == Newest(said, t.historyCap)
    ensures Pushed(t, role, text).history == Newest(said + [Message(role, text)], t.historyCap)
  {
    var cap, all := t.historyCap, said + [Message(role, text)];
    if cap > 0 && |said| > cap {
      assert (said[|said| - cap..] + [Message(role, text)])[1..] == all[|all| - cap..];
    }
  }

  /** The thread of an accepted message, before the message. */
  function ThreadFor(s: State, cfg: Config, msg: InboundMessage): Thread
    requires Accepts(s, cfg, msg)
  {
    var id := ForPeer(msg.channel, msg.peer);
    if id in s.cache then s.cache[id] else Thread(id, msg.channel, msg.peer, cfg.autoOpen.value, [], cfg.historyCap)
  }

  lemma AcceptedCache(s: State, cfg: Config, msg: InboundMessage, reply: Option<Draft>)
    requires Accepts(s, cfg, msg)
    ensures Step(s, cfg, Ingest(msg, reply)).cache
         == s.cache[ForPeer(msg.channel, msg.peer) := Spoken(ThreadFor(s, cfg, msg), msg, reply)]
  {
    TurnTouches(FindOrOpen(s, cfg, msg).value, msg, reply, ForPeer(msg.channel, msg.peer));
  }

  lemma SpokenIsNewest(t: Thread, said: seq<Message>, msg: InboundMessage, reply: Option<Draft>)
    requires t.history == Newest(said, t.historyCap)
    ensures Spoken(t, msg, reply).history == Newest(said + Spoke(msg, reply), t.historyCap)
    ensures Spoken(t, msg, reply).historyCap == t.historyCap
  {
    var heard := Message(User, AsText(msg.content));
    PushedIsNewest(t, said, User, AsText(msg.content));
    if reply.Some? {
      var answer := Message(Assistant, AsText(reply.value.content));
      PushedIsNewest(Pushed(t, User, AsText(msg.content)), said + [heard], Assistant, AsText(reply.value.content));
      Assoc(said, [heard], [answer]);
    } else {
      assert Spoke(msg, reply) == [heard];
    }
  }

  /** The thread, if it is open, has the newest of what was said; otherwise nothing was. */
  predicate HasSaid(s: State, cfg: Config, id: string, said: seq<Message>) {
    if id in s.cache then s.cache[id].history == Newest(said, cfg.historyCap) && s.cache[id].historyCap == cfg.historyCap
    else said == []
  }

  predicate Speaks(s: State, cfg: Config, op: Op, id: string) {
    op.Ingest? && Accepts(s, cfg, op.msg) && ForPeer(op.msg.channel, op.msg.peer) == id
  }

  lemma TurnHistory(s: State, cfg: Config, op: Op, id: string, said: seq<Message>)
    requires HasSaid(s, cfg, id, said) && Speaks(s, cfg, op, id)
    ensures HasSaid(Step(s, cfg, op), cfg, id, said + Spoke(op.msg, op.reply))
  {
    AcceptedCache(s, cfg, op.msg, op.reply);
    SpokenIsNewest(ThreadFor(s, cfg, op.msg), said, op.msg, op.reply);
  }

  lemma QuietHistory(s: State, cfg: Config, op: Op, id: string, said: seq<Message>)
    requires HasSaid(s, cfg, id, said) && !Speaks(s, cfg, op, id)
    ensures HasSaid(Step(s, cfg, op), cfg, id, if op == Close(id) then [] else said)
  {
    if op.Ingest? && Accepts(s, cfg, op.msg) {
      AcceptedCache(s, cfg, op.msg, op.reply);
    }
  }

  /** The history of an open thread is the newest `history_cap` of all that was said on it since it was
      last closed, by the peer and by the target, in order; all of it when the cap is zero. */
  lemma {:induction false} HistoryReadsTheRun(cfg: Config, ops: seq<Op>, id: string)
    ensures HasSaid(Run(cfg, ops), cfg, id, Said(cfg, ops, id))
    decreases |ops|
  {
    if ops != [] {
      var s, op, said := Run(cfg, Init(ops)), Last(ops), Said(cfg, Init(ops), id);
      HistoryReadsTheRun(cfg, Init(ops), id);
      if Speaks(s, cfg, op, id) {
        TurnHistory(s, cfg, op, id, said);
      } else {
        QuietHistory(s, cfg, op, id, said);
      }
    }
  }

  /** The store operations of the run, in order. */
  function LogOf(cfg: Config, ops: seq<Op>): seq<StoreOp> {
    if ops == [] then [] else LogOf(cfg, Init(ops)) + StoreOps(Run(cfg, Init(ops)), cfg, Last(ops))
  }

  lemma {:induction false} ReplayAppend(log: seq<StoreOp>, more: seq<StoreOp>)
    ensures Replay(log + more) == ApplyAll(Replay(log), more)
    decreases |more|
  {
    if more == [] {
      assert log + more == log;
    } else {
      ReplayAppend(log, Init(more));
      EndsOf(more);
      Assoc(log, Init(more), [Last(more)]);
      InitSnoc(log + Init(more), Last(more));
    }
  }

  /** The store of a run is the replay of its log, so that what holds of every operation log holds of
      every run: each accepted message is recorded as inbound, with its content and provider id, on its
      own thread, after the thread's row if the message opens it. */
  lemma {:induction false} StoreReadsTheRun(cfg: Config, ops: seq<Op>)
    ensures Run(cfg, ops).store == Replay(LogOf(cfg, ops))
    decreases |ops|
  {
    if ops != [] {
      StoreReadsTheRun(cfg, Init(ops));
      StoreOpsApply(Run(cfg, Init(ops)), cfg, Last(ops));
      ReplayAppend(LogOf(cfg, Init(ops)), StoreOps(Run(cfg, Init(ops)), cfg, Last(ops)));
    }
  }
}
