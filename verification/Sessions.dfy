/** The agent-SDK session lifecycle: slot reservation by fetch-and-add, the session registry and
    the sandbox workspaces, as a system of interleaved atomic steps. */
module Sessions {
  import opened Prelude

  /** How acquiring a workspace ends: no sandbox wanted, a staged sandbox, a sandbox whose staging
      failed, or no sandbox at all. */
  datatype Staging = OnHost | Staged(sandbox: nat) | StagingFailed(sandbox: nat) | NotCreated

  /** Where an operation in flight stands between two of its atomic steps. */
  datatype Proc =
    | Refused
    | Reserved
    | Prepared(ws: Option<nat>)
    | Created(ws: Option<nat>, sid: string)
    | Stored(sid: string)
    | Unwinding(ws: Option<nat>)
    | Stopping(sid: string)
    | Removed(sid: string, owner: bool)
    | Taken(ws: Option<nat>, owner: bool)
    | Releasing(owner: bool)
    | Running(ws: Option<nat>)

  /** `counter` is additions minus subtractions; the atomic word holds it modulo 2^64.
      `live` are the staged, undestroyed sandboxes, `destroyed` those destroyed, in order,
      `leaked` those whose staging failed. `extra` counts slot releases by operations that owned
      no slot, `used` the session ids handed out so far. */
  datatype State = State(counter: int, procs: map<nat, Proc>, sessions: seq<string>,
                         workspaces: map<string, nat>, live: set<nat>, destroyed: seq<nat>,
                         leaked: set<nat>, used: set<string>, extra: nat)

  datatype Action =
    | Reserve | UndoReserve | Prepare(staging: Staging) | Create(sid: Option<string>) | StoreWorkspace | Register
    | Unwind | FindSession(id: string) | Remove | Take | Destroy | Release
    | BeginRun(staging: Staging) | EndRun

  datatype Event = Event(pid: nat, act: Action)

  const WORD := 0x1_0000_0000_0000_0000

  /** The value the atomic counter shows. */
  function Wrapped(counter: int): nat {
    counter % WORD
  }

  function Without(sessions: seq<string>, id: string): seq<string> {
    if sessions == [] then []
    else Without(Init(sessions), id) + (if Last(sessions) == id then [] else [Last(sessions)])
  }

  predicate Fresh(s: State, sandbox: nat) {
    sandbox !in s.live && sandbox !in s.destroyed && sandbox !in s.leaked
  }

  function DestroyWs(s: State, ws: Option<nat>): State {
    if ws.None? then s
    else s.(live := s.live - {ws.value}, destroyed := s.destroyed + [ws.value])
  }

  function Goto(s: State, pid: nat, p: Proc): State {
    s.(procs := s.procs[pid := p])
  }

  function Finish(s: State, pid: nat): State {
    s.(procs := s.procs - {pid})
  }

  /** The first atomic step of an operation. */
  function Begin(s: State, max: nat, pid: nat, act: Action): State {
    match act
    case Reserve =>
      var s' := s.(counter := s.counter + 1);
      if Wrapped(s.counter) >= max then Goto(s', pid, Refused) else Goto(s', pid, Reserved)
    case FindSession(id) => if id in s.sessions then Goto(s, pid, Stopping(id)) else s
    case BeginRun(OnHost) => Goto(s, pid, Running(None))
    case BeginRun(Staged(b)) => if Fresh(s, b) then Goto(s.(live := s.live + {b}), pid, Running(Some(b))) else s
    case BeginRun(StagingFailed(b)) => if Fresh(s, b) then s.(leaked := s.leaked + {b}) else s
    case _ => s
  }

  /** A further step of a session start. */
  function Starting(s: State, pid: nat, act: Action): State
    requires pid in s.procs
  {
    match (s.procs[pid], act)
    case (Refused, UndoReserve) => Finish(s.(counter := s.counter - 1), pid)
    case (Reserved, Prepare(OnHost)) => Goto(s, pid, Prepared(None))
    case (Reserved, Prepare(Staged(b))) =>
      if Fresh(s, b) then Goto(s.(live := s.live + {b}), pid, Prepared(Some(b))) else s
    case (Reserved, Prepare(StagingFailed(b))) =>
      if Fresh(s, b) then Goto(s.(leaked := s.leaked + {b}), pid, Releasing(true)) else s
    case (Reserved, Prepare(NotCreated)) => Goto(s, pid, Releasing(true))
    case (Prepared(ws), Create(Some(sid))) =>
      if sid in s.used then s else Goto(s.(used := s.used + {sid}), pid, Created(ws, sid))
    case (Prepared(ws), Create(None)) => Goto(s, pid, Unwinding(ws))
    case (Created(ws, sid), StoreWorkspace) =>
      Goto(if ws.Some? then s.(workspaces := s.workspaces[sid := ws.value]) else s, pid, Stored(sid))
    case (Stored(sid), Register) => Finish(s.(sessions := s.sessions + [sid]), pid)
    case _ => s
  }

  /** A further step of a stop, of a run, or of unwinding a failed start. */
  function Ending(s: State, pid: nat, act: Action): State
    requires pid in s.procs
  {
    match (s.procs[pid], act)
    case (Unwinding(ws), Unwind) => Goto(DestroyWs(s, ws), pid, Releasing(true))
    case (Stopping(sid), Remove) =>
      Goto(s.(sessions := Without(s.sessions, sid)), pid, Removed(sid, sid in s.sessions))
    case (Removed(sid, owner), Take) =>
      var ws := if sid in s.workspaces then Some(s.workspaces[sid]) else None;
      Goto(s.(workspaces := s.workspaces - {sid}), pid, Taken(ws, owner))
    case (Taken(ws, owner), Destroy) => Goto(DestroyWs(s, ws), pid, Releasing(owner))
    case (Releasing(owner), Release) =>
      Finish(s.(counter := s.counter - 1, extra := s.extra + if owner then 0 else 1), pid)
    case (Running(ws), EndRun) => Finish(DestroyWs(s, ws), pid)
    case _ => s
  }

  predicate IsStarting(p: Proc) {
    p.Refused? || p.Reserved? || p.Prepared? || p.Created? || p.Stored?
  }

  /** One atomic step of one operation. An action that the operation cannot take now, or that
      would reuse a sandbox or session id, changes nothing. */
  function Step(s: State, max: nat, e: Event): State {
    if e.pid !in s.procs then Begin(s, max, e.pid, e.act)
    else if IsStarting(s.procs[e.pid]) then Starting(s, e.pid, e.act)
    else Ending(s, e.pid, e.act)
  }

  const Start := State(0, map[], [], map[], {}, [], {}, {}, 0)

  function RunFrom(s: State, max: nat, events: seq<Event>): State {
    if events == [] then s else Step(RunFrom(s, max, Init(events)), max, Last(events))
  }

  function Run(max: nat, events: seq<Event>): State {
    RunFrom(Start, max, events)
  }

  // ----- Slots --------------------------------------------------------------

  predicate HoldsSlot(p: Proc) {
    match p
    case Reserved | Prepared(_) | Created(_, _) | Stored(_) | Unwinding(_) => true
    case Removed(_, owner) => owner
    case Taken(_, owner) => owner
    case Releasing(owner) => owner
    case _ => false
  }

  /** The operations in flight that satisfy a condition. */
  function Where(procs: map<nat, Proc>, f: Proc -> bool): set<nat> {
    set p | p in procs && f(procs[p])
  }

  function Holders(procs: map<nat, Proc>): set<nat> {
    Where(procs, HoldsSlot)
  }

  function Overshoot(procs: map<nat, Proc>): set<nat> {
    Where(procs, (p: Proc) => p.Refused?)
  }

  /** Slots held: by operations in flight and by registered sessions. */
  function Held(s: State): nat {
    |Holders(s.procs)| + |s.sessions|
  }

  function Bit(b: bool): nat {
    if b then 1 else 0
  }

  /** The operation carries a session id that is not yet registered. */
  predicate Carries(p: Proc) {
    p.Created? || p.Stored?
  }

  ghost predicate SessionsFresh(s: State) {
    && NoDup(s.sessions)
    && (forall id <- s.sessions :: id in s.used)
    && (forall p :: p in s.procs && Carries(s.procs[p]) ==> s.procs[p].sid in s.used && s.procs[p].sid !in s.sessions)
    && (forall p, q :: p in s.procs && q in s.procs && p != q && Carries(s.procs[p]) && Carries(s.procs[q])
          ==> s.procs[p].sid != s.procs[q].sid)
  }

  ghost predicate SlotInv(s: State, max: nat) {
    && SessionsFresh(s)
    && s.counter + s.extra == Held(s) + |Overshoot(s.procs)|
    && Held(s) <= max + s.extra
  }

  lemma WhereFinish(procs: map<nat, Proc>, pid: nat, f: Proc -> bool)
    ensures |Where(procs - {pid}, f)| + Bit(pid in procs && f(procs[pid])) == |Where(procs, f)|
  {
    assert Where(procs - {pid}, f) == Where(procs, f) - {pid};
  }

  lemma {:induction false} WithoutRemoves(sessions: seq<string>, id: string)
    ensures forall x :: x in Without(sessions, id) <==> x in sessions && x != id
    ensures NoDup(sessions) ==> NoDup(Without(sessions, id)) && |Without(sessions, id)| + Bit(id in sessions) == |sessions|
    decreases |sessions|
  {
    if sessions != [] {
      WithoutRemoves(Init(sessions), id);
      assert sessions == Init(sessions) + [Last(sessions)];
      assert NoDup(sessions) ==> NoDup(Init(sessions)) && Last(sessions) !in Init(sessions);
    }
  }

  /** Only the operation `pid` moved. */
  ghost predicate OnlyMoved(s: State, s': State, pid: nat) {
    forall q :: q != pid ==> (q in s.procs <==> q in s'.procs) && (q in s.procs ==> s'.procs[q] == s.procs[q])
  }

  lemma StepMovesOne(s: State, max: nat, e: Event)
    ensures OnlyMoved(s, Step(s, max, e), e.pid)
  {
  }

  lemma SessionsFrame(s: State, s': State, pid: nat)
    requires SessionsFresh(s) && OnlyMoved(s, s', pid)
    requires s'.sessions == s.sessions && s'.used == s.used
    requires pid in s'.procs && Carries(s'.procs[pid])
      ==> pid in s.procs && Carries(s.procs[pid]) && s'.procs[pid].sid == s.procs[pid].sid
    ensures SessionsFresh(s')
  {
  }

  lemma CreateKeepsSessions(s: State, max: nat, e: Event)
    requires SessionsFresh(s)
    requires e.pid in s.procs && s.procs[e.pid].Prepared? && e.act.Create? && e.act.sid.Some? && e.act.sid.value !in s.used
    ensures SessionsFresh(Step(s, max, e))
  {
  }

  lemma RegisterKeepsSessions(s: State, max: nat, e: Event)
    requires SessionsFresh(s)
    requires e.pid in s.procs && s.procs[e.pid].Stored? && e.act.Register?
    ensures SessionsFresh(Step(s, max, e))
  {
  }

  lemma RemoveKeepsSessions(s: State, max: nat, e: Event)
    requires SessionsFresh(s)
    requires e.pid in s.procs && s.procs[e.pid].Stopping? && e.act.Remove?
    ensures SessionsFresh(Step(s, max, e))
  {
    WithoutRemoves(s.sessions, s.procs[e.pid].sid);
  }

  lemma StepKeepsSessions(s: State, max: nat, e: Event)
    requires SessionsFresh(s)
    ensures SessionsFresh(Step(s, max, e))
  {
    if e.pid in s.procs && s.procs[e.pid].Prepared? && e.act.Create? && e.act.sid.Some? && e.act.sid.value !in s.used {
      CreateKeepsSessions(s, max, e);
    } else if e.pid in s.procs && s.procs[e.pid].Stored? && e.act.Register? {
      RegisterKeepsSessions(s, max, e);
    } else if e.pid in s.procs && s.procs[e.pid].Stopping? && e.act.Remove? {
      RemoveKeepsSessions(s, max, e);
    } else {
      StepMovesOne(s, max, e);
      SessionsFrame(s, Step(s, max, e), e.pid);
    }
  }

  function ProcAt(procs: map<nat, Proc>, pid: nat): Option<Proc> {
    if pid in procs then Some(procs[pid]) else None
  }

  /** How a step changes the counts, read off the operation that moved. */
  lemma MoveCounts(s: State, s': State, pid: nat, f: Proc -> bool)
    requires OnlyMoved(s, s', pid)
    ensures var before, after := ProcAt(s.procs, pid), ProcAt(s'.procs, pid);
      |Where(s'.procs, f)| + Bit(before.Some? && f(before.value)) == |Where(s.procs, f)| + Bit(after.Some? && f(after.value))
  {
    WhereFinish(s.procs, pid, f);
    WhereFinish(s'.procs, pid, f);
    assert s'.procs - {pid} == s.procs - {pid};
  }

  predicate Grants(s: State, max: nat, e: Event) {
    e.act.Reserve? && e.pid !in s.procs && Wrapped(s.counter) < max
  }

  /** The step moves the counter as it moves held slots, refusals and excess releases. */
  ghost predicate Balanced(s: State, s': State, granted: bool) {
    && s'.counter + s'.extra - Held(s') - |Overshoot(s'.procs)| == s.counter + s.extra - Held(s) - |Overshoot(s.procs)|
    && Held(s') <= Held(s) + Bit(granted) + (s'.extra - s.extra)
    && s'.counter <= s.counter + 1 && s'.extra >= s.extra
  }

  lemma MoveBalances(s: State, s': State, pid: nat, granted: bool)
    requires OnlyMoved(s, s', pid)
    requires var before, after := ProcAt(s.procs, pid), ProcAt(s'.procs, pid);
      var holds := |s'.sessions| - |s.sessions| + Bit(after.Some? && HoldsSlot(after.value)) - Bit(before.Some? && HoldsSlot(before.value));
      var over := Bit(after.Some? && after.value.Refused?) - Bit(before.Some? && before.value.Refused?);
      && s'.counter + s'.extra - s.counter - s.extra == holds + over
      && holds <= Bit(granted) + (s'.extra - s.extra)
      && s'.counter <= s.counter + 1 && s'.extra >= s.extra
    ensures Balanced(s, s', granted)
  {
    MoveCounts(s, s', pid, HoldsSlot);
    MoveCounts(s, s', pid, (p: Proc) => p.Refused?);
  }

  lemma BeginBalances(s: State, max: nat, pid: nat, act: Action)
    requires pid !in s.procs
    ensures Balanced(s, Begin(s, max, pid, act), Grants(s, max, Event(pid, act)))
  {
    StepMovesOne(s, max, Event(pid, act));
    MoveBalances(s, Begin(s, max, pid, act), pid, Grants(s, max, Event(pid, act)));
  }

  lemma StartingBalances(s: State, pid: nat, act: Action)
    requires pid in s.procs && IsStarting(s.procs[pid])
    ensures Balanced(s, Starting(s, pid, act), false)
  {
    StepMovesOne(s, 0, Event(pid, act));
    MoveBalances(s, Starting(s, pid, act), pid, false);
  }

  lemma EndingBalances(s: State, pid: nat, act: Action)
    requires NoDup(s.sessions) && pid in s.procs && !IsStarting(s.procs[pid])
    ensures Balanced(s, Ending(s, pid, act), false)
  {
    StepMovesOne(s, 0, Event(pid, act));
    if s.procs[pid].Stopping? {
      WithoutRemoves(s.sessions, s.procs[pid].sid);
    }
    MoveBalances(s, Ending(s, pid, act), pid, false);
  }

  lemma StepBalances(s: State, max: nat, e: Event)
    requires NoDup(s.sessions)
    ensures Balanced(s, Step(s, max, e), Grants(s, max, e))
  {
    if e.pid !in s.procs {
      BeginBalances(s, max, e.pid, e.act);
    } else if IsStarting(s.procs[e.pid]) {
      StartingBalances(s, e.pid, e.act);
    } else {
      EndingBalances(s, e.pid, e.act);
    }
  }

  lemma StepKeepsSlots(s: State, max: nat, e: Event)
    requires SlotInv(s, max) && s.counter < WORD
    ensures SlotInv(Step(s, max, e), max)
  {
    StepKeepsSessions(s, max, e);
    StepBalances(s, max, e);
    if Grants(s, max, e) && s.counter >= 0 {
      assert Wrapped(s.counter) == s.counter;
    }
  }

  /** At most `limit` operations are in flight at a time, under numbers below it, and together
      with the quota they fit the counter's word. */
  predicate Bounded(max: nat, limit: nat, events: seq<Event>) {
    max + limit < WORD && forall e <- events :: e.pid < limit
  }

  lemma {:induction false} CardBelow(s: set<nat>, n: nat)
    requires forall x <- s :: x < n
    ensures |s| <= n
    decreases n
  {
    if s != {} {
      CardBelow(s - {n - 1}, n - 1);
    }
  }

  lemma {:induction false} InFlightBelow(max: nat, limit: nat, events: seq<Event>)
    requires Bounded(max, limit, events)
    ensures forall p :: p in Run(max, events).procs ==> p < limit
    decreases |events|
  {
    if events != [] {
      EndsOf(events);
      InFlightBelow(max, limit, Init(events));
      StepMovesOne(Run(max, Init(events)), max, Last(events));
    }
  }

  /** Whatever the interleaving of reservations, refusals, failed starts, stops and releases, and
      even while refused reservations overshoot the counter: the counter is the slots held plus
      the refusals not yet undone, less the releases that owned no slot; and the slots held exceed
      the quota by no more than those releases. */
  lemma {:induction false} QuotaInEveryInterleaving(max: nat, limit: nat, events: seq<Event>)
    requires Bounded(max, limit, events)
    ensures var s := Run(max, events);
      && s.counter + s.extra == Held(s) + |Overshoot(s.procs)|
      && Held(s) <= max + s.extra
    ensures SlotInv(Run(max, events), max)
    decreases |events|
  {
    if events != [] {
      EndsOf(events);
      QuotaInEveryInterleaving(max, limit, Init(events));
      var s := Run(max, Init(events));
      InFlightBelow(max, limit, Init(events));
      CardBelow(Overshoot(s.procs), limit);
      StepKeepsSlots(s, max, Last(events));
    }
  }

  // ----- One stop per session id ------------------------------------------------

  /** The step is a stop finding its session. */
  predicate Finds(s: State, e: Event) {
    e.act.FindSession? && e.pid !in s.procs && e.act.id in s.sessions
  }

  /** No stop finds its session while another stop of it has not yet removed it. */
  predicate SoleStop(s: State, e: Event) {
    Finds(s, e) ==> forall p :: p in s.procs ==> s.procs[p] != Stopping(e.act.id)
  }

  predicate SoleStops(max: nat, events: seq<Event>)
    decreases |events|
  {
    events == [] || (SoleStops(max, Init(events)) && SoleStop(Run(max, Init(events)), Last(events)))
  }

  /** Each stop in flight has the session to itself, and every stop past removal owns its slot. */
  ghost predicate StopInv(s: State) {
    && s.extra == 0
    && (forall p :: p in s.procs && s.procs[p].Stopping? ==> s.procs[p].sid in s.sessions)
    && (forall p, q :: p in s.procs && q in s.procs && p != q && s.procs[p].Stopping? && s.procs[q].Stopping?
          ==> s.procs[p].sid != s.procs[q].sid)
    && (forall p :: p in s.procs && (s.procs[p].Removed? || s.procs[p].Taken? || s.procs[p].Releasing?) ==> s.procs[p].owner)
  }

  lemma StopFrame(s: State, s': State, pid: nat)
    requires StopInv(s) && OnlyMoved(s, s', pid) && s'.extra == s.extra
    requires forall id <- s.sessions :: id in s'.sessions
    requires pid in s'.procs ==> !s'.procs[pid].Stopping?
    requires pid in s'.procs && (s'.procs[pid].Removed? || s'.procs[pid].Taken? || s'.procs[pid].Releasing?) ==> s'.procs[pid].owner
    ensures StopInv(s')
  {
  }

  lemma FindKeepsStops(s: State, max: nat, e: Event)
    requires StopInv(s) && Finds(s, e) && SoleStop(s, e)
    ensures StopInv(Step(s, max, e))
  {
  }

  lemma RemoveKeepsStops(s: State, max: nat, e: Event)
    requires StopInv(s) && e.pid in s.procs && s.procs[e.pid].Stopping? && e.act.Remove?
    ensures StopInv(Step(s, max, e))
  {
    WithoutRemoves(s.sessions, s.procs[e.pid].sid);
  }

  lemma StepKeepsStops(s: State, max: nat, e: Event)
    requires StopInv(s) && SoleStop(s, e)
    ensures StopInv(Step(s, max, e))
  {
    if Finds(s, e) {
      FindKeepsStops(s, max, e);
    } else if e.pid in s.procs && s.procs[e.pid].Stopping? && e.act.Remove? {
      RemoveKeepsStops(s, max, e);
    } else if e.pid !in s.procs {
      StepMovesOne(s, max, e);
      StopFrame(s, Begin(s, max, e.pid, e.act), e.pid);
    } else if IsStarting(s.procs[e.pid]) {
      StartingKeepsStops(s, e.pid, e.act);
    } else {
      EndingKeepsStops(s, e.pid, e.act);
    }
  }

  lemma StartingKeepsStops(s: State, pid: nat, act: Action)
    requires StopInv(s) && pid in s.procs && IsStarting(s.procs[pid])
    ensures StopInv(Starting(s, pid, act))
  {
    StepMovesOne(s, 0, Event(pid, act));
    StopFrame(s, Starting(s, pid, act), pid);
  }

  lemma EndingKeepsStops(s: State, pid: nat, act: Action)
    requires StopInv(s) && pid in s.procs && !IsStarting(s.procs[pid])
    requires !(s.procs[pid].Stopping? && act.Remove?)
    ensures StopInv(Ending(s, pid, act))
  {
    if Ending(s, pid, act) != s {
      StepMovesOne(s, 0, Event(pid, act));
      StopFrame(s, Ending(s, pid, act), pid);
    }
  }

  lemma {:induction false} SoleStopsKeepInv(max: nat, events: seq<Event>)
    requires SoleStops(max, events)
    ensures StopInv(Run(max, events))
    decreases |events|
  {
    if events != [] {
      SoleStopsKeepInv(max, Init(events));
      StepKeepsStops(Run(max, Init(events)), max, Last(events));
    }
  }

  /** With one stop per session id, no release is in excess: the quota holds exactly, and the
      counter is the slots held plus the refusals not yet undone. */
  lemma SoleStopsKeepQuota(max: nat, limit: nat, events: seq<Event>)
    requires Bounded(max, limit, events) && SoleStops(max, events)
    ensures var s := Run(max, events);
      s.extra == 0 && s.counter == Held(s) + |Overshoot(s.procs)| && Held(s) <= max
  {
    QuotaInEveryInterleaving(max, limit, events);
    SoleStopsKeepInv(max, events);
  }

  function Rest(p: nat): seq<Event> {
    [Event(p, Remove), Event(p, Take), Event(p, Destroy), Event(p, Release)]
  }

  /** What a whole stop does to the shared state. */
  function StopEffect(s: State, id: string): State {
    if id !in s.sessions then s
    else
      var ws := if id in s.workspaces then Some(s.workspaces[id]) else None;
      var removed := s.(sessions := Without(s.sessions, id), workspaces := s.workspaces - {id});
      DestroyWs(removed, ws).(counter := s.counter - 1)
  }

  lemma RunFromSnoc(s: State, max: nat, events: seq<Event>, e: Event)
    ensures RunFrom(s, max, events + [e]) == Step(RunFrom(s, max, events), max, e)
  {
    InitSnoc(events, e);
  }

  lemma RunFromThree(s: State, max: nat, a: Event, b: Event, c: Event)
    ensures RunFrom(s, max, [a, b, c]) == Step(Step(Step(s, max, a), max, b), max, c)
  {
    assert [] + [a] == [a] && [a] + [b] == [a, b] && [a, b] + [c] == [a, b, c];
    RunFromSnoc(s, max, [], a);
    RunFromSnoc(s, max, [a], b);
    RunFromSnoc(s, max, [a, b], c);
  }

  lemma RunFromFour(s: State, max: nat, a: Event, b: Event, c: Event, d: Event)
    ensures RunFrom(s, max, [a, b, c, d]) == Step(Step(Step(Step(s, max, a), max, b), max, c), max, d)
  {
    RunFromThree(s, max, a, b, c);
    assert [a, b, c] + [d] == [a, b, c, d];
    RunFromSnoc(s, max, [a, b, c], d);
  }

  lemma StopRemoves(s: State, max: nat, p: nat)
    requires p in s.procs && s.procs[p].Stopping?
    ensures var id := s.procs[p].sid;
      Step(s, max, Event(p, Remove))
        == s.(sessions := Without(s.sessions, id), procs := s.procs[p := Removed(id, id in s.sessions)])
  {
  }

  lemma StopTakes(s: State, max: nat, p: nat)
    requires p in s.procs && s.procs[p].Removed?
    ensures var id := s.procs[p].sid;
      var ws := if id in s.workspaces then Some(s.workspaces[id]) else None;
      Step(s, max, Event(p, Take))
        == s.(workspaces := s.workspaces - {id}, procs := s.procs[p := Taken(ws, s.procs[p].owner)])
  {
  }

  lemma StopDestroys(s: State, max: nat, p: nat)
    requires p in s.procs && s.procs[p].Taken?
    ensures Step(s, max, Event(p, Destroy))
         == DestroyWs(s, s.procs[p].ws).(procs := s.procs[p := Releasing(s.procs[p].owner)])
  {
  }

  lemma StopReleases(s: State, max: nat, p: nat)
    requires p in s.procs && s.procs[p].Releasing?
    ensures Step(s, max, Event(p, Release))
         == s.(counter := s.counter - 1, extra := s.extra + Bit(!s.procs[p].owner), procs := s.procs - {p})
  {
  }

  /** From finding its session to the end, a stop has that effect if the session is still there;
      if another stop took it in between, it releases a slot it does not own. */
  lemma RunRest(s: State, max: nat, p: nat)
    requires p in s.procs && s.procs[p].Stopping?
    ensures var s' := RunFrom(s, max, Rest(p));
      && s'.procs == s.procs - {p} && s'.sessions == Without(s.sessions, s.procs[p].sid)
      && s'.counter == s.counter - 1 && s'.extra == s.extra + Bit(s.procs[p].sid !in s.sessions)
      && (s.procs[p].sid in s.sessions ==> s' == StopEffect(s, s.procs[p].sid).(procs := s.procs - {p}))
  {
    RunFromFour(s, max, Event(p, Remove), Event(p, Take), Event(p, Destroy), Event(p, Release));
    var s1 := Step(s, max, Event(p, Remove));
    StopRemoves(s, max, p);
    var s2 := Step(s1, max, Event(p, Take));
    StopTakes(s1, max, p);
    var s3 := Step(s2, max, Event(p, Destroy));
    StopDestroys(s2, max, p);
    StopReleases(s3, max, p);
    assert s3.procs - {p} == s.procs - {p};
  }

  lemma {:induction false} RunFromAppend(s: State, max: nat, a: seq<Event>, b: seq<Event>)
    ensures RunFrom(s, max, a + b) == RunFrom(RunFrom(s, max, a), max, b)
    decreases |b|
  {
    if b == [] {
      assert a + b == a;
    } else {
      RunFromAppend(s, max, a, Init(b));
      EndsOf(b);
      Assoc(a, Init(b), [Last(b)]);
      InitSnoc(a + Init(b), Last(b));
    }
  }

  /** The discipline is needed: from any state in which two stops have found the same registered
      session, finishing both releases one slot too many. */
  lemma OverlappingStopsOverRelease(s: State, max: nat, p: nat, q: nat)
    requires p in s.procs && q in s.procs && p != q
    requires s.procs[p].Stopping? && s.procs[q] == s.procs[p] && s.procs[p].sid in s.sessions
    ensures RunFrom(s, max, Rest(p) + Rest(q)).extra == s.extra + 1
    ensures RunFrom(s, max, Rest(p) + Rest(q)).counter == s.counter - 2
    ensures RunFrom(s, max, Rest(p) + Rest(q)).procs == s.procs - {p} - {q}
    ensures RunFrom(s, max, Rest(p) + Rest(q)).sessions == Without(Without(s.sessions, s.procs[p].sid), s.procs[p].sid)
  {
    RunRest(s, max, p);
    var mid := RunFrom(s, max, Rest(p));
    WithoutRemoves(s.sessions, s.procs[p].sid);
    RunRest(mid, max, q);
    RunFromAppend(s, max, Rest(p), Rest(q));
  }

  // ----- Workspaces -----------------------------------------------------------------

  function WorkspaceOf(p: Proc): Option<nat> {
    match p
    case Prepared(ws) => ws
    case Created(ws, _) => ws
    case Unwinding(ws) => ws
    case Taken(ws, _) => ws
    case Running(ws) => ws
    case _ => None
  }

  /** The sandbox of each operation in flight that owns one. */
  function InFlight(procs: map<nat, Proc>): map<nat, nat> {
    map p | p in procs && WorkspaceOf(procs[p]).Some? :: WorkspaceOf(procs[p]).value
  }

  ghost predicate Injective<K(!new)>(m: map<K, nat>) {
    forall k, l :: k in m && l in m && k != l ==> m[k] != m[l]
  }

  /** Every live sandbox has exactly one owner: an operation in flight or a registered session. */
  ghost predicate Owned(flight: map<nat, nat>, registry: map<string, nat>, live: set<nat>) {
    && Injective(flight) && Injective(registry)
    && (forall p, k :: p in flight && k in registry ==> flight[p] != registry[k])
    && (forall b :: b in live <==> (exists p :: p in flight && flight[p] == b) || (exists k :: k in registry && registry[k] == b))
  }

  lemma OwnedAcquire(flight: map<nat, nat>, registry: map<string, nat>, live: set<nat>, p: nat, b: nat)
    requires Owned(flight, registry, live) && p !in flight && b !in live
    ensures Owned(flight[p := b], registry, live + {b})
  {
    var f' := flight[p := b];
    forall q, k | q in f' && k in registry
      ensures f'[q] != registry[k]
    {
      assert registry[k] in live;
    }
    forall q, r | q in f' && r in f' && q != r
      ensures f'[q] != f'[r]
    {
      if q != p {
        assert flight[q] in live;
      }
      if r != p {
        assert flight[r] in live;
      }
    }
    forall x
      ensures x in live + {b} <==> (exists q :: q in f' && f'[q] == x) || (exists k :: k in registry && registry[k] == x)
    {
      if x == b {
        assert f'[p] == x;
      } else if exists q :: q in flight && flight[q] == x {
        var q :| q in flight && flight[q] == x;
        assert q in f' && f'[q] == x;
      }
    }
  }

  lemma OwnedDrop(flight: map<nat, nat>, registry: map<string, nat>, live: set<nat>, p: nat)
    requires Owned(flight, registry, live) && p in flight
    ensures Owned(flight - {p}, registry, live - {flight[p]})
  {
    var f' := flight - {p};
    forall x
      ensures x in live - {flight[p]} <==> (exists q :: q in f' && f'[q] == x) || (exists k :: k in registry && registry[k] == x)
    {
      if exists q :: q in flight && flight[q] == x && q != p {
        var q :| q in flight && flight[q] == x && q != p;
        assert q in f' && f'[q] == x;
      }
    }
  }

  lemma OwnedDeposit(flight: map<nat, nat>, registry: map<string, nat>, live: set<nat>, p: nat, k: string)
    requires Owned(flight, registry, live) && p in flight && k !in registry
    ensures Owned(flight - {p}, registry[k := flight[p]], live)
  {
    var f', r' := flight - {p}, registry[k := flight[p]];
    forall x
      ensures x in live <==> (exists q :: q in f' && f'[q] == x) || (exists l :: l in r' && r'[l] == x)
    {
      if x == flight[p] {
        assert r'[k] == x;
      } else if exists q :: q in flight && flight[q] == x {
        var q :| q in flight && flight[q] == x;
        assert q in f' && f'[q] == x;
      } else if exists l :: l in registry && registry[l] == x {
        var l :| l in registry && registry[l] == x;
        assert l in r' && r'[l] == x;
      }
    }
  }

  lemma OwnedWithdraw(flight: map<nat, nat>, registry: map<string, nat>, live: set<nat>, p: nat, k: string)
    requires Owned(flight, registry, live) && p !in flight && k in registry
    ensures Owned(flight[p := registry[k]], registry - {k}, live)
  {
    var f', r' := flight[p := registry[k]], registry - {k};
    forall x
      ensures x in live <==> (exists q :: q in f' && f'[q] == x) || (exists l :: l in r' && r'[l] == x)
    {
      if x == registry[k] {
        assert f'[p] == x;
      } else if exists q :: q in flight && flight[q] == x {
        var q :| q in flight && flight[q] == x;
        assert q in f' && f'[q] == x;
      } else if exists l :: l in registry && registry[l] == x {
        var l :| l in registry && registry[l] == x;
        assert l in r' && r'[l] == x;
      }
    }
  }

  /** The in-flight map after operation `pid` moved. */
  lemma MoveFlight(s: State, s': State, pid: nat)
    requires OnlyMoved(s, s', pid)
    ensures var after := ProcAt(s'.procs, pid);
      InFlight(s'.procs) == (InFlight(s.procs) - {pid})
        + (if after.Some? && WorkspaceOf(after.value).Some? then map[pid := WorkspaceOf(after.value).value] else map[])
  {
  }

  /** Operation `p` guards the workspace registered under `k`: its session is about to be
      registered, or was just removed by a stop that takes the workspace next. */
  predicate Guards(p: Proc, k: string) {
    p == Stored(k) || (p.Removed? && p.sid == k)
  }

  ghost predicate Guarded(s: State) {
    && (forall k :: k in s.workspaces ==> k in s.used)
    && (forall k :: k in s.workspaces ==> k in s.sessions || exists p :: p in s.procs && Guards(s.procs[p], k))
    && (forall p :: p in s.procs && s.procs[p].Created? ==> s.procs[p].sid !in s.workspaces)
  }

  ghost predicate Accounted(s: State) {
    && Owned(InFlight(s.procs), s.workspaces, s.live)
    && NoDup(s.destroyed)
    && (forall b <- s.destroyed :: b !in s.live && b !in s.leaked)
    && s.live !! s.leaked
  }

  /** A step that moves no sandbox between owners. */
  lemma AccountFrame(s: State, s': State, pid: nat)
    requires Accounted(s) && OnlyMoved(s, s', pid)
    requires s'.workspaces == s.workspaces && s'.live == s.live && s'.destroyed == s.destroyed
    requires s'.leaked == s.leaked || (s.leaked <= s'.leaked && forall b :: b in s'.leaked && b !in s.leaked ==> Fresh(s, b))
    requires var before, after := ProcAt(s.procs, pid), ProcAt(s'.procs, pid);
      (if after.Some? then WorkspaceOf(after.value) else None) == (if before.Some? then WorkspaceOf(before.value) else None)
    ensures Accounted(s')
  {
    MoveFlight(s, s', pid);
    assert InFlight(s'.procs) == InFlight(s.procs);
  }

  lemma AcquireKeepsAccounts(s: State, s': State, pid: nat, b: nat)
    requires Accounted(s) && OnlyMoved(s, s', pid) && Fresh(s, b)
    requires pid in s.procs ==> WorkspaceOf(s.procs[pid]) == None
    requires pid in s'.procs && WorkspaceOf(s'.procs[pid]) == Some(b)
    requires s' == s.(procs := s'.procs, live := s.live + {b})
    ensures Accounted(s')
  {
    MoveFlight(s, s', pid);
    OwnedAcquire(InFlight(s.procs), s.workspaces, s.live, pid, b);
    assert InFlight(s'.procs) == InFlight(s.procs)[pid := b];
  }

  lemma DestroyKeepsAccounts(s: State, s': State, pid: nat, ws: Option<nat>)
    requires Accounted(s) && OnlyMoved(s, s', pid)
    requires pid in s.procs && WorkspaceOf(s.procs[pid]) == ws
    requires pid in s'.procs ==> WorkspaceOf(s'.procs[pid]) == None
    requires s'.workspaces == s.workspaces && s'.leaked == s.leaked
    requires s'.live == DestroyWs(s, ws).live && s'.destroyed == DestroyWs(s, ws).destroyed
    ensures Accounted(s')
  {
    if ws.None? {
      AccountFrame(s, s', pid);
    } else {
      MoveFlight(s, s', pid);
      OwnedDrop(InFlight(s.procs), s.workspaces, s.live, pid);
      assert ws.value in s.live;
    }
  }

  lemma DepositKeepsAccounts(s: State, pid: nat)
    requires Accounted(s) && Guarded(s) && pid in s.procs && s.procs[pid].Created?
    ensures Accounted(Starting(s, pid, StoreWorkspace))
  {
    var s', p := Starting(s, pid, StoreWorkspace), s.procs[pid];
    MoveFlight(s, s', pid);
    if p.ws.Some? {
      OwnedDeposit(InFlight(s.procs), s.workspaces, s.live, pid, p.sid);
    } else {
      AccountFrame(s, s', pid);
    }
  }

  lemma WithdrawKeepsAccounts(s: State, pid: nat)
    requires Accounted(s) && pid in s.procs && s.procs[pid].Removed?
    ensures Accounted(Ending(s, pid, Take))
  {
    var s', sid := Ending(s, pid, Take), s.procs[pid].sid;
    MoveFlight(s, s', pid);
    if sid in s.workspaces {
      OwnedWithdraw(InFlight(s.procs), s.workspaces, s.live, pid, sid);
      assert InFlight(s'.procs) == InFlight(s.procs)[pid := s.workspaces[sid]];
    } else {
      assert s'.workspaces == s.workspaces;
      AccountFrame(s, s', pid);
    }
  }

  lemma BeginKeepsAccounts(s: State, max: nat, pid: nat, act: Action)
    requires Accounted(s) && pid !in s.procs
    ensures Accounted(Begin(s, max, pid, act))
  {
    var s' := Begin(s, max, pid, act);
    StepMovesOne(s, max, Event(pid, act));
    if s'.live != s.live {
      AcquireKeepsAccounts(s, s', pid, act.staging.sandbox);
    } else {
      AccountFrame(s, s', pid);
    }
  }

  lemma StartingKeepsAccounts(s: State, pid: nat, act: Action)
    requires Accounted(s) && Guarded(s) && pid in s.procs && IsStarting(s.procs[pid])
    ensures Accounted(Starting(s, pid, act))
  {
    var s' := Starting(s, pid, act);
    StepMovesOne(s, 0, Event(pid, act));
    if s'.live != s.live {
      AcquireKeepsAccounts(s, s', pid, act.staging.sandbox);
    } else if s.procs[pid].Created? && act.StoreWorkspace? {
      DepositKeepsAccounts(s, pid);
    } else {
      AccountFrame(s, s', pid);
    }
  }

  /** The steps that destroy the sandbox an operation holds. */
  predicate Destroys(p: Proc, act: Action) {
    (p.Unwinding? && act.Unwind?) || (p.Taken? && act.Destroy?) || (p.Running? && act.EndRun?)
  }

  lemma DestructionKeepsAccounts(s: State, pid: nat, act: Action)
    requires Accounted(s) && pid in s.procs && Destroys(s.procs[pid], act)
    ensures Accounted(Ending(s, pid, act))
  {
    StepMovesOne(s, 0, Event(pid, act));
    DestroyKeepsAccounts(s, Ending(s, pid, act), pid, s.procs[pid].ws);
  }

  lemma SlotStepsKeepAccounts(s: State, pid: nat, act: Action)
    requires Accounted(s) && pid in s.procs
    requires (s.procs[pid].Stopping? && act.Remove?) || (s.procs[pid].Releasing? && act.Release?)
    ensures Accounted(Ending(s, pid, act))
  {
    StepMovesOne(s, 0, Event(pid, act));
    AccountFrame(s, Ending(s, pid, act), pid);
  }

  lemma EndingKeepsAccounts(s: State, pid: nat, act: Action)
    requires Accounted(s) && pid in s.procs && !IsStarting(s.procs[pid])
    ensures Accounted(Ending(s, pid, act))
  {
    var p := s.procs[pid];
    if Destroys(p, act) {
      DestructionKeepsAccounts(s, pid, act);
    } else if p.Removed? && act.Take? {
      WithdrawKeepsAccounts(s, pid);
    } else if (p.Stopping? && act.Remove?) || (p.Releasing? && act.Release?) {
      SlotStepsKeepAccounts(s, pid, act);
    } else {
      assert Ending(s, pid, act) == s;
    }
  }

  lemma StepKeepsAccounts(s: State, max: nat, e: Event)
    requires Accounted(s) && Guarded(s)
    ensures Accounted(Step(s, max, e))
  {
    if e.pid !in s.procs {
      BeginKeepsAccounts(s, max, e.pid, e.act);
    } else if IsStarting(s.procs[e.pid]) {
      StartingKeepsAccounts(s, e.pid, e.act);
    } else {
      EndingKeepsAccounts(s, e.pid, e.act);
    }
  }

  lemma GuardFrame(s: State, s': State, pid: nat)
    requires Guarded(s) && OnlyMoved(s, s', pid)
    requires s.used <= s'.used && s'.workspaces.Keys <= s.workspaces.Keys
    requires forall k :: k in s'.workspaces && k in s.sessions ==> k in s'.sessions || (pid in s'.procs && Guards(s'.procs[pid], k))
    requires pid in s.procs ==> forall k :: k in s'.workspaces && Guards(s.procs[pid], k) ==>
      (k in s'.sessions || (pid in s'.procs && Guards(s'.procs[pid], k)))
    requires pid in s'.procs && s'.procs[pid].Created? ==> s'.procs[pid].sid !in s'.workspaces
    ensures Guarded(s')
  {
    forall k | k in s'.workspaces
      ensures k in s'.sessions || exists p :: p in s'.procs && Guards(s'.procs[p], k)
    {
      if k !in s.sessions {
        var p :| p in s.procs && Guards(s.procs[p], k);
        if p != pid {
          assert p in s'.procs && Guards(s'.procs[p], k);
        }
      }
    }
  }

  lemma DepositKeepsGuards(s: State, max: nat, e: Event)
    requires Guarded(s) && SessionsFresh(s)
    requires e.pid in s.procs && s.procs[e.pid].Created? && e.act.StoreWorkspace?
    ensures Guarded(Step(s, max, e))
  {
    var s', sid := Step(s, max, e), s.procs[e.pid].sid;
    assert Guards(s'.procs[e.pid], sid);
    forall k | k in s'.workspaces && k != sid
      ensures k in s'.sessions || exists p :: p in s'.procs && Guards(s'.procs[p], k)
    {
      if k !in s.sessions {
        var p :| p in s.procs && Guards(s.procs[p], k);
        assert p in s'.procs && Guards(s'.procs[p], k);
      }
    }
  }

  lemma BeginKeepsGuards(s: State, max: nat, pid: nat, act: Action)
    requires Guarded(s) && pid !in s.procs
    ensures Guarded(Begin(s, max, pid, act))
  {
    StepMovesOne(s, max, Event(pid, act));
    GuardFrame(s, Begin(s, max, pid, act), pid);
  }

  lemma CreateKeepsGuards(s: State, pid: nat, act: Action)
    requires Guarded(s) && pid in s.procs && s.procs[pid].Prepared? && act.Create?
    ensures Guarded(Starting(s, pid, act))
  {
    StepMovesOne(s, 0, Event(pid, act));
    GuardFrame(s, Starting(s, pid, act), pid);
  }

  lemma RegisterKeepsGuards(s: State, pid: nat)
    requires Guarded(s) && pid in s.procs && s.procs[pid].Stored?
    ensures Guarded(Starting(s, pid, Register))
  {
    StepMovesOne(s, 0, Event(pid, Register));
    GuardFrame(s, Starting(s, pid, Register), pid);
  }

  lemma ReservationKeepsGuards(s: State, pid: nat, act: Action)
    requires Guarded(s) && pid in s.procs && (s.procs[pid].Refused? || s.procs[pid].Reserved?)
    ensures Guarded(Starting(s, pid, act))
  {
    StepMovesOne(s, 0, Event(pid, act));
    GuardFrame(s, Starting(s, pid, act), pid);
  }

  lemma StartingKeepsGuards(s: State, max: nat, pid: nat, act: Action)
    requires Guarded(s) && SessionsFresh(s) && pid in s.procs && IsStarting(s.procs[pid])
    ensures Guarded(Starting(s, pid, act))
  {
    var p := s.procs[pid];
    if p.Created? && act.StoreWorkspace? {
      DepositKeepsGuards(s, max, Event(pid, act));
    } else if p.Prepared? && act.Create? {
      CreateKeepsGuards(s, pid, act);
    } else if p.Stored? && act.Register? {
      RegisterKeepsGuards(s, pid);
    } else if p.Refused? || p.Reserved? {
      ReservationKeepsGuards(s, pid, act);
    } else {
      assert Starting(s, pid, act) == s;
    }
  }

  lemma EndingKeepsGuards(s: State, max: nat, pid: nat, act: Action)
    requires Guarded(s) && pid in s.procs && !IsStarting(s.procs[pid])
    ensures Guarded(Ending(s, pid, act))
  {
    StepMovesOne(s, max, Event(pid, act));
    if s.procs[pid].Stopping? {
      WithoutRemoves(s.sessions, s.procs[pid].sid);
    }
    GuardFrame(s, Ending(s, pid, act), pid);
  }

  lemma StepKeepsGuards(s: State, max: nat, e: Event)
    requires Guarded(s) && SessionsFresh(s)
    ensures Guarded(Step(s, max, e))
  {
    if e.pid !in s.procs {
      BeginKeepsGuards(s, max, e.pid, e.act);
    } else if IsStarting(s.procs[e.pid]) {
      StartingKeepsGuards(s, max, e.pid, e.act);
    } else {
      EndingKeepsGuards(s, max, e.pid, e.act);
    }
  }

  /** Over every interleaving: each staged sandbox has exactly one owner until it is destroyed, is
      destroyed at most once, and is never used after; a sandbox whose staging failed is never
      destroyed. */
  lemma {:induction false} SandboxesAccounted(max: nat, events: seq<Event>)
    ensures Accounted(Run(max, events)) && Guarded(Run(max, events)) && SessionsFresh(Run(max, events))
    decreases |events|
  {
    if events != [] {
      var s, e := Run(max, Init(events)), Last(events);
      SandboxesAccounted(max, Init(events));
      StepKeepsAccounts(s, max, e);
      StepKeepsGuards(s, max, e);
      StepKeepsSessions(s, max, e);
    }
  }

  /** With one stop per session id, whenever no operation is in flight the counter is the number
      of registered sessions, which is within the quota, and the live sandboxes are exactly the
      workspaces of registered sessions. */
  lemma QuiescentStateAgrees(max: nat, limit: nat, events: seq<Event>)
    requires Bounded(max, limit, events) && SoleStops(max, events)
    requires Run(max, events).procs == map[]
    ensures var s := Run(max, events);
      && s.counter == |s.sessions| <= max
      && s.live == s.workspaces.Values
      && forall k :: k in s.workspaces ==> k in s.sessions
  {
    SoleStopsKeepQuota(max, limit, events);
    SandboxesAccounted(max, events);
    var s := Run(max, events);
    assert Holders(s.procs) == {} && Overshoot(s.procs) == {};
    assert InFlight(s.procs) == map[];
    forall b
      ensures b in s.live <==> b in s.workspaces.Values
    {
      if b in s.live {
        var k :| k in s.workspaces && s.workspaces[k] == b;
      }
    }
  }

  lemma DestructionKeeps(s: State, ws: Option<nat>, b: nat)
    requires b in s.live || b in s.destroyed
    ensures b in DestroyWs(s, ws).live || b in DestroyWs(s, ws).destroyed
  {
    if ws.Some? {
      assert Last(DestroyWs(s, ws).destroyed) == ws.value;
    }
  }

  lemma StagedStays(s: State, max: nat, e: Event, b: nat)
    requires b in s.live || b in s.destroyed
    ensures b in Step(s, max, e).live || b in Step(s, max, e).destroyed
  {
    if e.pid in s.procs && !IsStarting(s.procs[e.pid]) {
      if Destroys(s.procs[e.pid], e.act) {
        DestructionKeeps(s, s.procs[e.pid].ws, b);
      }
    }
  }

  lemma {:induction false} StagedStaysInRun(s: State, max: nat, events: seq<Event>, b: nat)
    requires b in s.live || b in s.destroyed
    ensures b in RunFrom(s, max, events).live || b in RunFrom(s, max, events).destroyed
    decreases |events|
  {
    if events != [] {
      StagedStaysInRun(s, max, Init(events), b);
      StagedStays(RunFrom(s, max, Init(events)), max, Last(events), b);
    }
  }

  /** A sandbox staged at any point of a run ends, once no operation is in flight, either as the
      workspace of a registered session or destroyed, exactly once. */
  lemma EverySandboxEnds(max: nat, before: seq<Event>, after: seq<Event>, b: nat)
    requires b in Run(max, before).live
    requires Run(max, before + after).procs == map[]
    ensures var s := Run(max, before + after);
      (multiset(s.destroyed)[b] == 1 && b !in s.workspaces.Values)
      || (multiset(s.destroyed)[b] == 0 && exists k :: k in s.workspaces && s.workspaces[k] == b && k in s.sessions)
  {
    RunFromAppend(Start, max, before, after);
    StagedStaysInRun(Run(max, before), max, after, b);
    SandboxesAccounted(max, before + after);
    var s := Run(max, before + after);
    assert InFlight(s.procs) == map[];
    if b in s.live {
      var k :| k in s.workspaces && s.workspaces[k] == b;
      assert k in s.sessions;
      assert b !in s.destroyed;
    } else {
      OnceIfNoDup(s.destroyed, b);
    }
  }

  lemma {:induction false} OnceIfNoDup(s: seq<nat>, b: nat)
    requires NoDup(s)
    ensures multiset(s)[b] == Bit(b in s)
    decreases |s|
  {
    if s != [] {
      assert s == Init(s) + [Last(s)];
      OnceIfNoDup(Init(s), b);
      assert Last(s) !in Init(s);
    }
  }

  // ----- Operations run without interference ---------------------------------------

  datatype HarnessError = SessionQuota(max: nat) | SandboxFailed | BackendFailed | PromptFailed | SessionNotFound(id: string)
                        | InvalidWorkdir

  predicate Usable(staging: Staging) {
    staging.OnHost? || staging.Staged?
  }

  function SandboxOf(staging: Staging): Option<nat> {
    if staging.Staged? then Some(staging.sandbox) else None
  }

  /** The sandbox and the session id handed out are fresh. */
  predicate FreshIds(s: State, staging: Staging, sid: Option<string>) {
    && (staging.Staged? || staging.StagingFailed? ==> Fresh(s, staging.sandbox))
    && (sid.Some? ==> sid.value !in s.used)
  }

  function AfterStaging(s: State, staging: Staging): State {
    match staging
    case Staged(b) => s.(live := s.live + {b})
    case StagingFailed(b) => s.(leaked := s.leaked + {b})
    case _ => s
  }

  /** What a whole start does to the shared state. */
  function StartEffect(s: State, max: nat, staging: Staging, sid: Option<string>): State {
    if Wrapped(s.counter) >= max then s
    else
      var prepared := AfterStaging(s, staging);
      if !Usable(staging) then prepared
      else if sid.None? then DestroyWs(prepared, SandboxOf(staging))
      else prepared.(counter := s.counter + 1, used := s.used + {sid.value}, sessions := s.sessions + [sid.value],
                     workspaces := if staging.Staged? then s.workspaces[sid.value := staging.sandbox] else s.workspaces)
  }

  function RunEffect(s: State, staging: Staging): State {
    if Usable(staging) then DestroyWs(AfterStaging(s, staging), SandboxOf(staging)) else AfterStaging(s, staging)
  }

  lemma EndPath(s0: State, max: nat, path: seq<Event>, s: State, e: Event) returns (s': State)
    requires RunFrom(s0, max, path) == s
    ensures s' == Step(s, max, e) && RunFrom(s0, max, path + [e]) == s'
  {
    s' := Step(s, max, e);
    assert Init(path + [e]) == path;
  }

  /** A start is a path through the step system, ending with no operation left in flight. */
  lemma StartIsAPath(s: State, max: nat, pid: nat, staging: Staging, sid: Option<string>) returns (path: seq<Event>)
    requires pid !in s.procs && FreshIds(s, staging, sid)
    ensures RunFrom(s, max, path) == StartEffect(s, max, staging, sid)
    ensures forall e <- path :: e.pid == pid && !e.act.FindSession?
  {
    path := [Event(pid, Reserve)];
    var s1 := EndPath(s, max, [], s, path[0]);
    assert [] + path == path;
    if Wrapped(s.counter) >= max {
      var s2 := EndPath(s, max, path, s1, Event(pid, UndoReserve));
      path := path + [Event(pid, UndoReserve)];
      assert s2.procs == s.procs;
    } else {
      var s2 := EndPath(s, max, path, s1, Event(pid, Prepare(staging)));
      path := path + [Event(pid, Prepare(staging))];
      if !Usable(staging) {
        var s3 := EndPath(s, max, path, s2, Event(pid, Release));
        path := path + [Event(pid, Release)];
        assert s3.procs == s.procs;
      } else {
        var rest := StartFrom(s, max, path, s2, pid, staging, sid);
        path := path + rest;
      }
    }
  }

  lemma StartFrom(s: State, max: nat, path: seq<Event>, s2: State, pid: nat, staging: Staging, sid: Option<string>)
    returns (rest: seq<Event>)
    requires pid !in s.procs && FreshIds(s, staging, sid) && Usable(staging) && Wrapped(s.counter) < max
    requires RunFrom(s, max, path) == s2
    requires s2 == Goto(AfterStaging(s, staging).(counter := s.counter + 1), pid, Prepared(SandboxOf(staging)))
    ensures RunFrom(s, max, path + rest) == StartEffect(s, max, staging, sid)
    ensures forall e <- rest :: e.pid == pid && !e.act.FindSession?
  {
    rest := [Event(pid, Create(sid)),
             Event(pid, if sid.None? then Unwind else StoreWorkspace),
             Event(pid, if sid.None? then Release else Register)];
    RunFromAppend(s, max, path, rest);
    if sid.None? {
      UnwoundStart(s, max, pid, staging, rest);
    } else {
      RegisteredStart(s, max, pid, staging, sid.value, rest);
    }
  }

  lemma UnwoundStart(s: State, max: nat, pid: nat, staging: Staging, ev: seq<Event>)
    requires pid !in s.procs && FreshIds(s, staging, None) && Usable(staging) && Wrapped(s.counter) < max
    requires ev == [Event(pid, Create(None)), Event(pid, Unwind), Event(pid, Release)]
    ensures RunFrom(Goto(AfterStaging(s, staging).(counter := s.counter + 1), pid, Prepared(SandboxOf(staging))), max, ev)
         == StartEffect(s, max, staging, None)
  {
    var s0 := Goto(AfterStaging(s, staging).(counter := s.counter + 1), pid, Prepared(SandboxOf(staging)));
    RunFromThree(s0, max, ev[0], ev[1], ev[2]);
    var s1 := Step(s0, max, ev[0]);
    assert s1 == Goto(s0, pid, Unwinding(SandboxOf(staging)));
    var s2 := Step(s1, max, ev[1]);
    assert s2 == Goto(DestroyWs(s1, SandboxOf(staging)), pid, Releasing(true));
    StopReleases(s2, max, pid);
    assert s2.procs - {pid} == s.procs;
  }

  lemma RegisteredStart(s: State, max: nat, pid: nat, staging: Staging, sid: string, ev: seq<Event>)
    requires pid !in s.procs && FreshIds(s, staging, Some(sid)) && Usable(staging) && Wrapped(s.counter) < max
    requires ev == [Event(pid, Create(Some(sid))), Event(pid, StoreWorkspace), Event(pid, Register)]
    ensures RunFrom(Goto(AfterStaging(s, staging).(counter := s.counter + 1), pid, Prepared(SandboxOf(staging))), max, ev)
         == StartEffect(s, max, staging, Some(sid))
  {
    var s0 := Goto(AfterStaging(s, staging).(counter := s.counter + 1), pid, Prepared(SandboxOf(staging)));
    RunFromThree(s0, max, ev[0], ev[1], ev[2]);
    var s1 := Step(s0, max, ev[0]);
    assert s1 == Goto(s0.(used := s0.used + {sid}), pid, Created(SandboxOf(staging), sid));
    var s2 := Step(s1, max, ev[1]);
    assert s2.procs == s.procs[pid := Stored(sid)];
    assert Step(s2, max, ev[2]) == s2.(sessions := s2.sessions + [sid], procs := s.procs);
  }

  lemma StopIsAPath(s: State, max: nat, pid: nat, id: string) returns (path: seq<Event>)
    requires pid !in s.procs
    ensures RunFrom(s, max, path) == StopEffect(s, id)
  {
    if id !in s.sessions {
      path := [];
    } else {
      var e := Event(pid, FindSession(id));
      var s1 := EndPath(s, max, [], s, e);
      RunRest(s1, max, pid);
      RunFromAppend(s, max, [e], Rest(pid));
      assert [] + [e] == [e];
      path := [e] + Rest(pid);
      assert s1.procs - {pid} == s.procs;
    }
  }

  lemma RunBegins(s: State, max: nat, pid: nat, staging: Staging)
    requires pid !in s.procs && FreshIds(s, staging, None)
    ensures Step(s, max, Event(pid, BeginRun(staging)))
         == if Usable(staging) then Goto(AfterStaging(s, staging), pid, Running(SandboxOf(staging)))
            else AfterStaging(s, staging)
  {
  }

  lemma RunEnds(s: State, max: nat, pid: nat)
    requires pid in s.procs && s.procs[pid].Running?
    ensures Step(s, max, Event(pid, EndRun)) == Finish(DestroyWs(s, s.procs[pid].ws), pid)
  {
  }

  lemma RunIsAPath(s: State, max: nat, pid: nat, staging: Staging) returns (path: seq<Event>)
    requires pid !in s.procs && FreshIds(s, staging, None)
    ensures RunFrom(s, max, path) == RunEffect(s, staging)
  {
    var e1, e2 := Event(pid, BeginRun(staging)), Event(pid, EndRun);
    RunBegins(s, max, pid, staging);
    RunFromSnoc(s, max, [], e1);
    assert [] + [e1] == [e1];
    path := [e1];
    if Usable(staging) {
      var s1 := Step(s, max, e1);
      RunEnds(s1, max, pid);
      RunFromSnoc(s, max, [e1], e2);
      path := [e1] + [e2];
      assert s1.procs - {pid} == s.procs;
    }
  }

  // ----- The harness object -----------------------------------------------------

  /** The shared state of the harness and of its sandbox orchestrator. */
  class AgentSdkHarness {
    const max: nat
    var counter: int
    var sessions: seq<string>
    var workspaces: map<string, nat>
    var live: set<nat>
    var destroyed: seq<nat>
    var leaked: set<nat>
    var used: set<string>

    constructor (max: nat)
      ensures this.max == max && Shared() == Start
    {
      this.max := max;
      counter, sessions, workspaces := 0, [], map[];
      live, destroyed, leaked, used := {}, [], {}, {};
    }

    function Shared(): State
      reads this
    {
      State(counter, map[], sessions, workspaces, live, destroyed, leaked, used, 0)
    }

    method ReserveSlot() returns (ok: bool)
      modifies this`counter
      ensures ok <==> Wrapped(old(counter)) < max
      ensures counter == old(counter) + if ok then 1 else 0
    {
      var prev := counter;
      counter := counter + 1;
      if Wrapped(prev) >= max {
        counter := counter - 1;
        return false;
      }
      ok := true;
    }

    method ReleaseWorkspace(ws: Option<nat>)
      modifies this`live, this`destroyed
      ensures Shared() == DestroyWs(old(Shared()), ws)
    {
      if ws.Some? {
        live := live - {ws.value};
        destroyed := destroyed + [ws.value];
      }
    }

    /** Acquires a workspace; `None` when the projection goes onto the host. */
    method PrepareWorkspace(staging: Staging) returns (ok: bool, ws: Option<nat>)
      modifies this`live, this`leaked
      ensures ok <==> Usable(staging)
      ensures ws == SandboxOf(staging)
      ensures Shared() == AfterStaging(old(Shared()), staging)
    {
      ok, ws := false, None;
      match staging {
        case OnHost => ok := true;
        case Staged(b) => live := live + {b}; ok, ws := true, Some(b);
        case StagingFailed(b) => leaked := leaked + {b};
        case NotCreated =>
      }
    }

    /** `workdir` tells whether the working directory is valid; `sid` is the id of the session the
        backend creates, if it does; `prompt` tells whether sending the initial prompt, if there
        is one, succeeds. An invalid directory is refused before a slot is reserved. A failing
        prompt is reported, but the session stays registered and keeps its slot. */
    method StartSession(workdir: bool, staging: Staging, sid: Option<string>, prompt: Option<bool>)
      returns (r: Result<string, HarnessError>)
      modifies this
      ensures Shared() == if workdir then StartEffect(old(Shared()), max, staging, sid) else old(Shared())
      ensures r == if !workdir then Err(InvalidWorkdir)
                   else if Wrapped(old(counter)) >= max then Err(SessionQuota(max))
                   else if !Usable(staging) then Err(SandboxFailed)
                   else if sid.None? then Err(BackendFailed)
                   else if prompt == Some(false) then Err(PromptFailed)
                   else Ok(sid.value)
    {
      if !workdir {
        return Err(InvalidWorkdir);
      }
      var reserved := ReserveSlot();
      if !reserved {
        return Err(SessionQuota(max));
      }
      var ok, ws := PrepareWorkspace(staging);
      if !ok {
        counter := counter - 1;
        return Err(SandboxFailed);
      }
      if sid.None? {
        ReleaseWorkspace(ws);
        counter := counter - 1;
        return Err(BackendFailed);
      }
      used := used + {sid.value};
      if ws.Some? {
        workspaces := workspaces[sid.value := ws.value];
      }
      sessions := sessions + [sid.value];
      if prompt == Some(false) {
        return Err(PromptFailed);
      }
      r := Ok(sid.value);
    }

    method StopSession(id: string) returns (r: Result<(), HarnessError>)
      modifies this
      ensures Shared() == StopEffect(old(Shared()), id)
      ensures r == if id in old(sessions) then Ok(()) else Err(SessionNotFound(id))
    {
      var found := Find(id);
      if !found {
        return Err(SessionNotFound(id));
      }
      Retain(id);
      var ws := if id in workspaces then Some(workspaces[id]) else None;
      workspaces := workspaces - {id};
      ReleaseWorkspace(ws);
      counter := counter - 1;
      r := Ok(());
    }

    /** `answered` tells whether the backend's query and its stream succeed. */
    method RunQuery(workdir: bool, staging: Staging, answered: bool) returns (r: Result<(), HarnessError>)
      modifies this
      ensures Shared() == if workdir then RunEffect(old(Shared()), staging) else old(Shared())
      ensures r == if !workdir then Err(InvalidWorkdir) else if !Usable(staging) then Err(SandboxFailed) else if answered then Ok(()) else Err(BackendFailed)
    {
      if !workdir {
        return Err(InvalidWorkdir);
      }
      var ok, ws := PrepareWorkspace(staging);
      if !ok {
        return Err(SandboxFailed);
      }
      r := if answered then Ok(()) else Err(BackendFailed);
      ReleaseWorkspace(ws);
    }

    method Find(id: string) returns (found: bool)
      ensures found <==> id in sessions
    {
      for i := 0 to |sessions|
        invariant id !in sessions[..i]
      {
        if sessions[i] == id {
          return true;
        }
      }
      found := false;
    }

    method Retain(id: string)
      modifies this`sessions
      ensures sessions == Without(old(sessions), id)
    {
      var kept: seq<string> := [];
      for i := 0 to |sessions|
        invariant sessions == old(sessions)
        invariant kept == Without(sessions[..i], id)
      {
        assert Init(sessions[..i + 1]) == sessions[..i];
        if sessions[i] != id {
          kept := kept + [sessions[i]];
        }
      }
      assert sessions[..|sessions|] == sessions;
      sessions := kept;
    }
  }
}
