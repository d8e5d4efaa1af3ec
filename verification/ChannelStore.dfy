/** The in-memory channel store and the operation log it refines. */
module ChannelStore {
  import opened Prelude
  import opened MessageContent

  datatype Role = User | Assistant

  datatype Message = Message(role: Role, content: string)

  /** What a thread is bound to; the callable itself is not part of this model. */
  datatype Target = CallableTarget(name: string) | HarnessTarget(name: string)

  datatype Thread = Thread(id: string, channel: string, peer: string, target: Target,
                           history: seq<Message>, historyCap: nat)

  datatype ChannelSpec = ChannelSpec(id: string, capabilities: Capabilities)

  datatype Direction = Inbound | Outbound

  datatype Record = Record(threadId: string, direction: Direction, content: Content,
                           providerMsgId: Option<string>, key: Option<string>)

  /** The value of the four collections behind the store's lock. */
  datatype StoreState = StoreState(channels: map<string, ChannelSpec>,
                                   threads: map<string, Thread>,
                                   messages: map<string, seq<Record>>,
                                   seen: set<(string, string)>)

  datatype StoreOp =
    | UpsertChannel(spec: ChannelSpec)
    | DeleteChannel(channel: string)
    | UpsertThread(thread: Thread)
    | DeleteThread(threadId: string)
    | Append(rec: Record)

  const Empty := StoreState(map[], map[], map[], {})

  function MessagesOf(s: StoreState, id: string): seq<Record> {
    if id in s.messages then s.messages[id] else []
  }

  /** The (channel, provider id) pair an append marks as seen, if any. */
  function Marks(threads: map<string, Thread>, rec: Record): set<(string, string)> {
    if rec.direction.Inbound? && rec.providerMsgId.Some? && rec.threadId in threads
    then {(threads[rec.threadId].channel, rec.providerMsgId.value)}
    else {}
  }

  function Apply(s: StoreState, op: StoreOp): StoreState {
    match op
    case UpsertChannel(spec) => s.(channels := s.channels[spec.id := spec])
    case DeleteChannel(c) =>
      var dropped := set t | t in s.threads && s.threads[t].channel == c;
      StoreState(s.channels - {c}, s.threads - dropped, s.messages - dropped,
                 set p | p in s.seen && p.0 != c)
    case UpsertThread(t) => s.(threads := s.threads[t.id := t])
    case DeleteThread(id) => s.(threads := s.threads - {id}, messages := s.messages - {id})
    case Append(rec) =>
      s.(seen := s.seen + Marks(s.threads, rec),
         messages := s.messages[rec.threadId := MessagesOf(s, rec.threadId) + [rec]])
  }

  /** The state after a whole log. */
  function Replay(log: seq<StoreOp>): StoreState {
    if log == [] then Empty else Apply(Replay(Init(log)), Last(log))
  }

  function ApplyAll(s: StoreState, ops: seq<StoreOp>): StoreState {
    if ops == [] then s else Apply(ApplyAll(s, Init(ops)), Last(ops))
  }

  lemma OneMoreDropped<V>(m: map<string, V>, all: set<string>, drop: set<string>, t: string)
    requires t in drop && drop <= all
    ensures m - (all - drop) - {t} == m - (all - (drop - {t}))
  {
  }

  // ----- The store object ------------------------------------------------

  class InMemoryChannelStore {
    var channels: map<string, ChannelSpec>
    var threads: map<string, Thread>
    var messages: map<string, seq<Record>>
    var seen: set<(string, string)>

    function State(): StoreState
      reads this
    {
      StoreState(channels, threads, messages, seen)
    }

    constructor ()
      ensures State() == Empty
    {
      channels, threads, messages, seen := map[], map[], map[], {};
    }

    method UpsertChannel(spec: ChannelSpec)
      modifies this
      ensures State() == Apply(old(State()), StoreOp.UpsertChannel(spec))
    {
      channels := channels[spec.id := spec];
    }

    method GetChannel(id: string) returns (spec: Option<ChannelSpec>)
      ensures spec.Some? <==> id in State().channels
      ensures spec.Some? ==> spec.value == State().channels[id]
    {
      spec := if id in channels then Some(channels[id]) else None;
    }

    method DeleteChannel(id: string)
      modifies this
      ensures State() == Apply(old(State()), StoreOp.DeleteChannel(id))
    {
      channels := channels - {id};
      var drop := set t | t in threads && threads[t].channel == id;
      ghost var all := drop;
      while drop != {}
        invariant drop <= all
        invariant channels == old(channels) - {id} && seen == old(seen)
        invariant threads == old(threads) - (all - drop)
        invariant messages == old(messages) - (all - drop)
        decreases drop
      {
        var t :| t in drop;
        OneMoreDropped(old(threads), all, drop, t);
        OneMoreDropped(old(messages), all, drop, t);
        threads := threads - {t};
        messages := messages - {t};
        drop := drop - {t};
      }
      seen := set p | p in seen && p.0 != id;
    }

    method UpsertThread(thread: Thread)
      modifies this
      ensures State() == Apply(old(State()), StoreOp.UpsertThread(thread))
    {
      threads := threads[thread.id := thread];
    }

    method DeleteThread(id: string)
      modifies this
      ensures State() == Apply(old(State()), StoreOp.DeleteThread(id))
    {
      threads := threads - {id};
      messages := messages - {id};
    }

    method AppendMessage(rec: Record)
      modifies this
      ensures State() == Apply(old(State()), StoreOp.Append(rec))
    {
      if rec.providerMsgId.Some? && rec.direction.Inbound? && rec.threadId in threads {
        seen := seen + {(threads[rec.threadId].channel, rec.providerMsgId.value)};
      }
      var log := if rec.threadId in messages then messages[rec.threadId] else [];
      messages := messages[rec.threadId := log + [rec]];
    }

    /** The newest `limit` records, all of them when `limit` is zero. */
    method ListMessages(id: string, limit: nat) returns (recs: seq<Record>)
      ensures exists older :: MessagesOf(State(), id) == older + recs
      ensures |recs| == if limit == 0 || limit > |MessagesOf(State(), id)| then |MessagesOf(State(), id)| else limit
    {
      if id !in messages {
        assert MessagesOf(State(), id) == [] + [];
        return [];
      }
      var v := messages[id];
      var take := if limit == 0 || limit > |v| then |v| else limit;
      recs := v[|v| - take..];
      assert v == v[..|v| - take] + recs;
    }

    method LookupOutboundByKey(id: string, key: string) returns (found: Option<string>)
      ensures found == Lookup(MessagesOf(State(), id), key)
    {
      found := None;
      if id in messages {
        var v := messages[id];
        for i := 0 to |v|
          invariant Lookup(v, key) == Lookup(v[i..], key)
        {
          if v[i].key == Some(key) {
            found := v[i].providerMsgId;
            return;
          }
          assert v[i..][1..] == v[i + 1..];
        }
      }
    }

    method HasInbound(channel: string, providerMsgId: string) returns (dup: bool)
      ensures dup <==> (channel, providerMsgId) in State().seen
    {
      dup := (channel, providerMsgId) in seen;
    }
  }

  /** The provider id of the first record that carries the key. */
  function Lookup(recs: seq<Record>, key: string): Option<string> {
    if recs == [] then None
    else if recs[0].key == Some(key) then recs[0].providerMsgId
    else Lookup(recs[1..], key)
  }

  // ----- Reading the log directly ------------------------------------------

  /** Operation `j` binds thread `id`, and nothing before position `n` rebinds or drops it. */
  predicate BoundBy(log: seq<StoreOp>, n: nat, id: string, j: nat) {
    && j < n <= |log|
    && log[j].UpsertThread? && log[j].thread.id == id
    && forall k :: j < k < n ==>
         && !(log[k].UpsertThread? && log[k].thread.id == id)
         && log[k] != StoreOp.DeleteThread(id)
         && log[k] != StoreOp.DeleteChannel(log[j].thread.channel)
  }

  /** At position `n` the thread is bound to the channel. */
  ghost predicate OnChannel(log: seq<StoreOp>, n: nat, id: string, channel: string) {
    exists j: nat :: BoundBy(log, n, id, j) && log[j].thread.channel == channel
  }

  /** Append `i` marked (channel, pid), and the channel was not deleted since. */
  ghost predicate MarkedBy(log: seq<StoreOp>, channel: string, pid: string, i: nat) {
    && i < |log|
    && log[i].Append? && log[i].rec.direction.Inbound? && log[i].rec.providerMsgId == Some(pid)
    && OnChannel(log, i, log[i].rec.threadId, channel)
    && forall k :: i < k < |log| ==> log[k] != StoreOp.DeleteChannel(channel)
  }

  /** Operation `k` drops the messages of the thread. */
  ghost predicate Wipes(log: seq<StoreOp>, k: nat, id: string) {
    && k < |log|
    && (log[k] == StoreOp.DeleteThread(id)
        || (log[k].DeleteChannel? && OnChannel(log, k, id, log[k].channel)))
  }

  /** The records appended to a thread, in order. */
  function Appended(log: seq<StoreOp>, id: string): seq<Record> {
    if log == [] then []
    else Appended(Init(log), id)
         + (if Last(log).Append? && Last(log).rec.threadId == id then [Last(log).rec] else [])
  }

  /** Position `w` is just after the last wipe of the thread, or 0 if there is none. */
  ghost predicate LastWipe(log: seq<StoreOp>, id: string, w: nat) {
    && w <= |log|
    && (w > 0 ==> Wipes(log, w - 1, id))
    && forall k :: w <= k < |log| ==> !Wipes(log, k, id)
  }

  lemma BoundByPrefix(log: seq<StoreOp>, op: StoreOp, n: nat, id: string, j: nat)
    requires n <= |log|
    ensures BoundBy(log + [op], n, id, j) <==> BoundBy(log, n, id, j)
  {
    assert forall k :: 0 <= k < |log| ==> (log + [op])[k] == log[k];
  }

  lemma OnChannelPrefix(log: seq<StoreOp>, op: StoreOp, n: nat, id: string, channel: string)
    requires n <= |log|
    ensures OnChannel(log + [op], n, id, channel) <==> OnChannel(log, n, id, channel)
  {
    forall j: nat
      ensures BoundBy(log + [op], n, id, j) <==> BoundBy(log, n, id, j)
    {
      BoundByPrefix(log, op, n, id, j);
    }
    if OnChannel(log + [op], n, id, channel) {
      var j: nat :| BoundBy(log + [op], n, id, j) && (log + [op])[j].thread.channel == channel;
      assert BoundBy(log, n, id, j);
    }
    if OnChannel(log, n, id, channel) {
      var j: nat :| BoundBy(log, n, id, j) && log[j].thread.channel == channel;
      assert BoundBy(log + [op], n, id, j);
    }
  }

  /** The thread table holds exactly what the log binds last. */
  lemma {:induction false} ThreadsReadTheLog(log: seq<StoreOp>, id: string)
    ensures id in Replay(log).threads <==> exists j: nat :: BoundBy(log, |log|, id, j)
    ensures forall j: nat :: BoundBy(log, |log|, id, j) ==> id in Replay(log).threads && Replay(log).threads[id] == log[j].thread
  {
    if log != [] {
      var prev, op := Init(log), Last(log);
      assert log == prev + [op];
      ThreadsReadTheLog(prev, id);
      forall j: nat
        ensures BoundBy(log, |log|, id, j) <==>
          (if j == |prev| then op.UpsertThread? && op.thread.id == id
           else && BoundBy(prev, |prev|, id, j)
                && !(op.UpsertThread? && op.thread.id == id)
                && op != StoreOp.DeleteThread(id)
                && op != StoreOp.DeleteChannel(prev[j].thread.channel))
      {
      }
      if op.UpsertThread? && op.thread.id == id {
        assert BoundBy(log, |log|, id, |prev|);
      } else if id in Replay(prev).threads {
        var j: nat :| BoundBy(prev, |prev|, id, j);
        assert BoundBy(log, |log|, id, j) <==> id in Replay(log).threads;
      }
    }
  }

  /** Operation `j` upserts the channel, and nothing before position `n` does so again or deletes
      it. */
  predicate SpecBy(log: seq<StoreOp>, n: nat, id: string, j: nat) {
    && j < n <= |log|
    && log[j].UpsertChannel? && log[j].spec.id == id
    && forall k :: j < k < n ==> !(log[k].UpsertChannel? && log[k].spec.id == id) && log[k] != StoreOp.DeleteChannel(id)
  }

  lemma SpecBySnoc(prev: seq<StoreOp>, op: StoreOp, id: string, j: nat)
    ensures SpecBy(prev + [op], |prev| + 1, id, j)
       <==> if j == |prev| then op.UpsertChannel? && op.spec.id == id
            else SpecBy(prev, |prev|, id, j) && !(op.UpsertChannel? && op.spec.id == id) && op != StoreOp.DeleteChannel(id)
  {
    var log := prev + [op];
    assert log[|prev|] == op && forall k :: 0 <= k < |prev| ==> log[k] == prev[k];
  }

  /** `get_channel` answers the spec upserted last: after any operation log a channel is present
      exactly when an upsert of it was not followed by its deletion, with that upsert's spec. */
  lemma {:induction false} ChannelsReadTheLog(log: seq<StoreOp>, id: string)
    ensures id in Replay(log).channels <==> exists j: nat :: SpecBy(log, |log|, id, j)
    ensures forall j: nat :: SpecBy(log, |log|, id, j) ==> id in Replay(log).channels && Replay(log).channels[id] == log[j].spec
    decreases |log|
  {
    if log != [] {
      var prev, op := Init(log), Last(log);
      assert log == prev + [op];
      ChannelsReadTheLog(prev, id);
      forall j: nat
        ensures SpecBy(log, |log|, id, j)
           <==> if j == |prev| then op.UpsertChannel? && op.spec.id == id
                else SpecBy(prev, |prev|, id, j) && !(op.UpsertChannel? && op.spec.id == id) && op != StoreOp.DeleteChannel(id)
      {
        SpecBySnoc(prev, op, id, j);
      }
      if op.UpsertChannel? && op.spec.id == id {
        assert SpecBy(log, |log|, id, |prev|);
      } else if id in Replay(prev).channels {
        var j: nat :| SpecBy(prev, |prev|, id, j);
        assert SpecBy(log, |log|, id, j) <==> id in Replay(log).channels;
      }
    }
  }

  lemma OnChannelIsTable(log: seq<StoreOp>, id: string, channel: string)
    ensures OnChannel(log, |log|, id, channel)
       <==> id in Replay(log).threads && Replay(log).threads[id].channel == channel
  {
    ThreadsReadTheLog(log, id);
  }

  lemma MarkedPrefix(prev: seq<StoreOp>, op: StoreOp, channel: string, pid: string, i: nat)
    requires i < |prev|
    ensures MarkedBy(prev + [op], channel, pid, i)
       <==> MarkedBy(prev, channel, pid, i) && op != StoreOp.DeleteChannel(channel)
  {
    var log := prev + [op];
    assert log[|prev|] == op && forall k :: 0 <= k < |prev| ==> log[k] == prev[k];
    if log[i].Append? {
      OnChannelPrefix(prev, op, i, log[i].rec.threadId, channel);
    }
  }

  lemma MarkedLast(prev: seq<StoreOp>, op: StoreOp, channel: string, pid: string)
    ensures MarkedBy(prev + [op], channel, pid, |prev|)
       <==> op.Append? && (channel, pid) in Marks(Replay(prev).threads, op.rec)
  {
    assert (prev + [op])[|prev|] == op;
    if op.Append? {
      OnChannelPrefix(prev, op, |prev|, op.rec.threadId, channel);
      OnChannelIsTable(prev, op.rec.threadId, channel);
    }
  }

  /** `has_inbound` answers exactly what scanning the log gives: some inbound append with that
      provider id, on a thread then bound to the channel, that no later deletion of the channel
      undid. Deleting the thread does not matter. */
  lemma {:induction false} SeenReadsTheLog(log: seq<StoreOp>, channel: string, pid: string)
    ensures (channel, pid) in Replay(log).seen <==> exists i: nat :: MarkedBy(log, channel, pid, i)
  {
    if log != [] {
      var prev, op := Init(log), Last(log);
      assert log == prev + [op];
      SeenReadsTheLog(prev, channel, pid);
      forall i: nat | i < |prev|
        ensures MarkedBy(log, channel, pid, i)
           <==> MarkedBy(prev, channel, pid, i) && op != StoreOp.DeleteChannel(channel)
      {
        MarkedPrefix(prev, op, channel, pid, i);
      }
      MarkedLast(prev, op, channel, pid);
      if (channel, pid) in Replay(log).seen && !MarkedBy(log, channel, pid, |prev|) {
        var i: nat :| MarkedBy(prev, channel, pid, i);
        assert MarkedBy(log, channel, pid, i);
      }
    }
  }

  /** The operation drops the messages of the thread, read off the state it is applied to. */
  predicate DropsThread(s: StoreState, op: StoreOp, thread: string) {
    op == StoreOp.DeleteThread(thread)
    || (op.DeleteChannel? && thread in s.threads && s.threads[thread].channel == op.channel)
  }

  lemma OnChannelOfPrefix(log: seq<StoreOp>, k: nat, id: string, channel: string)
    requires k <= |log|
    ensures OnChannel(log, k, id, channel) <==> OnChannel(log[..k], k, id, channel)
  {
    forall j: nat
      ensures BoundBy(log, k, id, j) <==> BoundBy(log[..k], k, id, j)
    {
      assert forall i :: 0 <= i < k ==> log[..k][i] == log[i];
    }
    if OnChannel(log, k, id, channel) {
      var j: nat :| BoundBy(log, k, id, j) && log[j].thread.channel == channel;
      assert BoundBy(log[..k], k, id, j);
    }
    if OnChannel(log[..k], k, id, channel) {
      var j: nat :| BoundBy(log[..k], k, id, j) && log[..k][j].thread.channel == channel;
      assert BoundBy(log, k, id, j);
    }
  }

  /** The two readings of a drop agree: scanning the log before it, and looking at the table it
      is applied to. */
  lemma WipesReadTheTable(log: seq<StoreOp>, k: nat, id: string)
    requires k < |log|
    ensures Wipes(log, k, id) <==> DropsThread(Replay(log[..k]), log[k], id)
  {
    if log[k].DeleteChannel? {
      OnChannelOfPrefix(log, k, id, log[k].channel);
      OnChannelIsTable(log[..k], id, log[k].channel);
    }
  }

  lemma WipesPrefix(log: seq<StoreOp>, op: StoreOp, k: nat, id: string)
    requires k < |log|
    ensures Wipes(log + [op], k, id) <==> Wipes(log, k, id)
  {
    if log[k].DeleteChannel? {
      OnChannelPrefix(log, op, k, id, log[k].channel);
    }
  }

  /** A thread's messages are exactly the records appended since its last wipe, in order. */
  lemma {:induction false} MessagesReadTheLog(log: seq<StoreOp>, id: string) returns (w: nat)
    ensures LastWipe(log, id, w)
    ensures MessagesOf(Replay(log), id) == Appended(log[w..], id)
  {
    if log == [] {
      w := 0;
    } else {
      var prev, op := Init(log), Last(log);
      assert log == prev + [op];
      w := MessagesReadTheLog(prev, id);
      LastWipePrefix(prev, op, id, w);
      WipeIsDrop(prev, op, id);
      if Wipes(log, |prev|, id) {
        w := |log|;
        assert log[w..] == [];
      } else {
        SinceWipeSnoc(prev, op, id, w);
      }
    }
  }

  lemma SinceWipeSnoc(prev: seq<StoreOp>, op: StoreOp, id: string, w: nat)
    requires w <= |prev|
    ensures Appended((prev + [op])[w..], id) == Appended(prev[w..], id) + Appended([op], id)
  {
    assert (prev + [op])[w..] == prev[w..] + [op];
    InitSnoc(prev[w..], op);
    InitSnoc([], op);
    assert [] + [op] == [op];
  }

  lemma LastWipePrefix(prev: seq<StoreOp>, op: StoreOp, id: string, w: nat)
    requires LastWipe(prev, id, w)
    ensures w > 0 ==> Wipes(prev + [op], w - 1, id)
    ensures forall k :: w <= k < |prev| ==> !Wipes(prev + [op], k, id)
  {
    forall k: nat | k < |prev|
      ensures Wipes(prev + [op], k, id) <==> Wipes(prev, k, id)
    {
      WipesPrefix(prev, op, k, id);
    }
  }

  lemma WipeIsDrop(prev: seq<StoreOp>, op: StoreOp, id: string)
    ensures Wipes(prev + [op], |prev|, id) ==> MessagesOf(Apply(Replay(prev), op), id) == []
    ensures !Wipes(prev + [op], |prev|, id) ==>
      MessagesOf(Apply(Replay(prev), op), id) == MessagesOf(Replay(prev), id) + Appended([op], id)
  {
    assert Init([op]) == [];
    if op.DeleteChannel? {
      OnChannelPrefix(prev, op, |prev|, id, op.channel);
      OnChannelIsTable(prev, id, op.channel);
    }
  }

  predicate FirstWithKey(recs: seq<Record>, key: string, i: int) {
    0 <= i < |recs| && recs[i].key == Some(key) && forall j :: 0 <= j < i ==> recs[j].key != Some(key)
  }

  /** A key lookup returns the provider id of the earliest record that carries the key. */
  lemma {:induction false} LookupIsFirst(recs: seq<Record>, key: string)
    ensures (forall r <- recs :: r.key != Some(key)) ==> Lookup(recs, key) == None
    ensures forall i :: FirstWithKey(recs, key, i) ==> Lookup(recs, key) == recs[i].providerMsgId
  {
    if recs != [] {
      LookupIsFirst(recs[1..], key);
      forall i | FirstWithKey(recs, key, i)
        ensures Lookup(recs, key) == recs[i].providerMsgId
      {
        if i > 0 {
          assert recs[1..][i - 1] == recs[i];
          assert FirstWithKey(recs[1..], key, i - 1);
        }
      }
    }
  }
}
