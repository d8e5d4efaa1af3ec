/** What overlapping stops and overshooting refusals do to the session quota: when releases are in
    excess, how far the quota can be exceeded, and when a reservation is granted. */
module SessionQuota {
  import opened Prelude
  import opened Sessions

  // ----- Excess releases exactly from overlapping stops --------------------------------

  /** No operation registers the id any more. */
  ghost predicate Gone(s: State, id: string) {
    && id in s.used && id !in s.sessions
    && forall p :: p in s.procs && Carries(s.procs[p]) ==> s.procs[p].sid != id
  }

  /** The operation is a stop that will release, or is about to release, a slot it does not own. */
  ghost predicate Unowned(s: State, p: nat) {
    && p in s.procs
    && match s.procs[p]
       case Removed(_, owner) => !owner
       case Taken(_, owner) => !owner
       case Releasing(owner) => !owner
       case Stopping(id) => Gone(s, id)
       case _ => false
  }

  /** Two stops have found the same registered session. */
  ghost predicate Overlap(s: State, p: nat, q: nat) {
    && p in s.procs && q in s.procs && p != q
    && s.procs[p].Stopping? && s.procs[q] == s.procs[p] && s.procs[p].sid in s.sessions
  }

  /** A release in excess has happened or can no longer be avoided. */
  ghost predicate Doomed(s: State) {
    || s.extra >= 1
    || (exists p :: Unowned(s, p))
    || (exists p, q :: Overlap(s, p, q))
  }

  lemma UsedGrows(s: State, max: nat, e: Event)
    ensures s.used <= Step(s, max, e).used && s.extra <= Step(s, max, e).extra
  {
  }

  lemma GoneStays(s: State, max: nat, e: Event, id: string)
    requires Gone(s, id)
    ensures Gone(Step(s, max, e), id)
  {
    StepMovesOne(s, max, e);
    if e.pid in s.procs && s.procs[e.pid].Stopping? {
      WithoutRemoves(s.sessions, s.procs[e.pid].sid);
    }
  }

  lemma RemovedIsGone(s: State, max: nat, p: nat)
    requires SessionsFresh(s) && p in s.procs && s.procs[p].Stopping? && s.procs[p].sid in s.sessions
    ensures Gone(Step(s, max, Event(p, Remove)), s.procs[p].sid)
  {
    StopRemoves(s, max, p);
    WithoutRemoves(s.sessions, s.procs[p].sid);
  }

  /** A stop without a slot of its own stays one until it releases in excess. */
  lemma UnownedStays(s: State, max: nat, e: Event, p: nat)
    requires Unowned(s, p)
    ensures Unowned(Step(s, max, e), p) || Step(s, max, e).extra >= 1
  {
    StepMovesOne(s, max, e);
    if s.procs[p].Stopping? {
      GoneStays(s, max, e, s.procs[p].sid);
    }
  }

  /** A registered session leaves the registry only by a stop that found it. */
  lemma SessionLeaves(s: State, max: nat, e: Event, id: string)
    requires id in s.sessions && id !in Step(s, max, e).sessions
    ensures e.pid in s.procs && s.procs[e.pid] == Stopping(id) && e.act == Remove
  {
    if e.pid in s.procs && s.procs[e.pid].Stopping? {
      WithoutRemoves(s.sessions, s.procs[e.pid].sid);
    }
  }

  lemma OverlapStays(s: State, max: nat, e: Event, p: nat, q: nat)
    requires SessionsFresh(s) && Overlap(s, p, q)
    ensures Doomed(Step(s, max, e))
  {
    var s', id := Step(s, max, e), s.procs[p].sid;
    StepMovesOne(s, max, e);
    if id !in s'.sessions {
      SessionLeaves(s, max, e, id);
      RemovedIsGone(s, max, e.pid);
      var other := if e.pid == p then q else p;
      assert s'.procs[other] == Stopping(id);
      assert Unowned(s', other);
    } else if s'.procs == s.procs {
      assert Overlap(s', p, q);
    } else {
      MovedStop(s, max, e, id);
      assert Overlap(s', p, q);
    }
  }

  /** A stop of a registered session moves only by removing it. */
  lemma MovedStop(s: State, max: nat, e: Event, id: string)
    requires id in s.sessions && id in Step(s, max, e).sessions
    ensures e.pid in s.procs && s.procs[e.pid] == Stopping(id) ==> Step(s, max, e) == s
  {
    WithoutRemoves(s.sessions, id);
  }

  lemma DoomedStays(s: State, max: nat, e: Event)
    requires SessionsFresh(s) && Doomed(s)
    ensures Doomed(Step(s, max, e))
  {
    UsedGrows(s, max, e);
    if s.extra == 0 {
      if exists p :: Unowned(s, p) {
        var p :| Unowned(s, p);
        UnownedStays(s, max, e, p);
      } else {
        var p, q :| Overlap(s, p, q);
        OverlapStays(s, max, e, p, q);
      }
    }
  }

  lemma OverlappingFindDooms(s: State, max: nat, e: Event)
    requires !SoleStop(s, e)
    ensures Doomed(Step(s, max, e))
  {
    var p :| p in s.procs && s.procs[p] == Stopping(e.act.id);
    assert Overlap(Step(s, max, e), p, e.pid);
  }

  lemma {:induction false} OverlapDooms(max: nat, events: seq<Event>)
    requires !SoleStops(max, events)
    ensures Doomed(Run(max, events))
    decreases |events|
  {
    var s, e := Run(max, Init(events)), Last(events);
    SandboxesAccounted(max, Init(events));
    if SoleStops(max, Init(events)) {
      OverlappingFindDooms(s, max, e);
    } else {
      OverlapDooms(max, Init(events));
      DoomedStays(s, max, e);
    }
  }

  /** Exactly when releases are in excess: in every run that ends with no operation in flight, some
      stop released a slot it did not own if and only if some stop found its session while another
      stop of that session had not yet removed it. */
  lemma ExcessIffOverlap(max: nat, events: seq<Event>)
    requires Run(max, events).procs == map[]
    ensures Run(max, events).extra == 0 <==> SoleStops(max, events)
  {
    if SoleStops(max, events) {
      SoleStopsKeepInv(max, events);
    } else {
      OverlapDooms(max, events);
    }
  }

  // ----- Runs put together ---------------------------------------------------------------

  lemma {:induction false} LongerThanAll(used: set<string>) returns (n: nat)
    ensures forall x <- used :: |x| < n
    decreases |used|
  {
    n := 0;
    if used != {} {
      var x :| x in used;
      n := LongerThanAll(used - {x});
      n := if n > |x| then n else |x| + 1;
    }
  }

  lemma UnusedId(used: set<string>) returns (id: string)
    ensures id !in used
  {
    var n := LongerThanAll(used);
    id := seq(n, _ => 'a');
  }

  predicate Below(path: seq<Event>, limit: nat) {
    forall e <- path :: e.pid < limit
  }

  lemma BelowAppend(a: seq<Event>, b: seq<Event>, limit: nat)
    requires Below(a, limit) && Below(b, limit)
    ensures Below(a + b, limit)
  {
  }

  predicate NoFinds(path: seq<Event>) {
    forall e <- path :: !e.act.FindSession?
  }

  lemma {:induction false} NoFindsSole(max: nat, path: seq<Event>)
    requires NoFinds(path)
    ensures SoleStops(max, path)
    decreases |path|
  {
    if path != [] {
      EndsOf(path);
      NoFindsSole(max, Init(path));
    }
  }

  /** A host session started by operation `pid` while a slot is free. */
  lemma StartOne(s: State, max: nat, pid: nat, limit: nat) returns (path: seq<Event>, id: string)
    requires pid !in s.procs && pid < limit && Wrapped(s.counter) < max
    ensures id !in s.used
    ensures RunFrom(s, max, path)
         == s.(counter := s.counter + 1, used := s.used + {id}, sessions := s.sessions + [id])
    ensures Below(path, limit) && NoFinds(path)
  {
    id := UnusedId(s.used);
    path := StartIsAPath(s, max, pid, OnHost, Some(id));
  }

  /** `k` host sessions and nothing else. */
  ghost predicate Filled(s: State, k: nat) {
    s.procs == map[] && |s.sessions| == k && s.counter == k && s.extra == 0
  }

  lemma {:induction false} FillUp(max: nat, k: nat, limit: nat) returns (path: seq<Event>)
    requires k <= max < WORD && limit > 0
    ensures Filled(Run(max, path), k) && Below(path, limit) && NoFinds(path)
  {
    if k == 0 {
      path := [];
    } else {
      var before := FillUp(max, k - 1, limit);
      var more, id := StartOne(Run(max, before), max, 0, limit);
      RunFromAppend(Start, max, before, more);
      BelowAppend(before, more, limit);
      path := before + more;
    }
  }

  // ----- How far the quota can be exceeded --------------------------------------------------

  /** The quota is used up and nothing is in flight. */
  ghost predicate Full(s: State, max: nat) {
    s.procs == map[] && s.counter == max && s.sessions != [] && SessionsFresh(s)
  }

  lemma TwoFinds(s: State, max: nat)
    requires s.procs == map[] && s.sessions != []
    ensures RunFrom(s, max, [Event(0, FindSession(s.sessions[0])), Event(1, FindSession(s.sessions[0]))])
         == s.(procs := map[0 := Stopping(s.sessions[0]), 1 := Stopping(s.sessions[0])])
  {
    var a, b := Event(0, FindSession(s.sessions[0])), Event(1, FindSession(s.sessions[0]));
    RunFromSnoc(s, max, [], a);
    RunFromSnoc(s, max, [a], b);
    assert [] + [a] == [a] && [a] + [b] == [a, b];
    assert map[][0 := Stopping(s.sessions[0])][1 := Stopping(s.sessions[0])]
        == map[0 := Stopping(s.sessions[0]), 1 := Stopping(s.sessions[0])];
  }

  /** Between the two stops of a round: a full harness, and a stop whose session is gone. */
  ghost predicate HalfWay(s: State, max: nat, id: string) {
    s.procs == map[1 := Stopping(id)] && s.counter == max && id !in s.sessions && id in s.used
  }

  /** Two stops find one session, and the first finishes. */
  lemma OneOfTwoStops(s: State, max: nat) returns (path: seq<Event>)
    requires s.procs == map[] && s.sessions != [] && NoDup(s.sessions)
    ensures var s', id := RunFrom(s, max, path), s.sessions[0];
      && s'.procs == map[1 := Stopping(id)] && s'.counter == s.counter - 1 && s'.used == s.used
      && id !in s'.sessions && |s'.sessions| == |s.sessions| - 1 && s'.extra == s.extra
    ensures Below(path, 2)
  {
    var id := s.sessions[0];
    var finds := [Event(0, FindSession(id)), Event(1, FindSession(id))];
    TwoFinds(s, max);
    var found := RunFrom(s, max, finds);
    WithoutRemoves(s.sessions, id);
    RunRest(found, max, 0);
    SecondStopLeft(id);
    RunFromAppend(s, max, finds, Rest(0));
    path := finds + Rest(0);
  }

  lemma SecondStopLeft(id: string)
    ensures map[0 := Stopping(id), 1 := Stopping(id)] - {0} == map[1 := Stopping(id)]
  {
  }

  /** ... and a session is started. */
  lemma FirstHalf(s: State, max: nat) returns (path: seq<Event>, id: string)
    requires Full(s, max) && 1 <= max < WORD
    ensures var s' := RunFrom(s, max, path);
      HalfWay(s', max, id) && |s'.sessions| == |s.sessions| && s'.extra == s.extra
    ensures Below(path, 2)
  {
    id := s.sessions[0];
    var stop := OneOfTwoStops(s, max);
    var more, a := StartOne(RunFrom(s, max, stop), max, 0, 2);
    RunFromAppend(s, max, stop, more);
    BelowAppend(stop, more, 2);
    path := stop + more;
  }

  lemma LateStop(s: State, max: nat, id: string)
    requires s.procs == map[1 := Stopping(id)] && id !in s.sessions
    ensures var s' := RunFrom(s, max, Rest(1));
      s'.procs == map[] && s'.counter == s.counter - 1 && s'.sessions == s.sessions && s'.extra == s.extra + 1
  {
    RunRest(s, max, 1);
    WithoutAbsent(s.sessions, id);
    assert s.procs - {1} == map[];
  }

  /** The second stop finishes, and another session is started. */
  lemma SecondHalf(s: State, max: nat, id: string) returns (path: seq<Event>)
    requires HalfWay(s, max, id) && 1 <= max < WORD
    ensures var s' := RunFrom(s, max, path);
      && s'.procs == map[] && s'.counter == max && |s'.sessions| == |s.sessions| + 1 && s'.extra == s.extra + 1
    ensures Below(path, 2)
  {
    LateStop(s, max, id);
    var more, a := StartOne(RunFrom(s, max, Rest(1)), max, 0, 2);
    RunFromAppend(s, max, Rest(1), more);
    assert Below(Rest(1), 2);
    BelowAppend(Rest(1), more, 2);
    path := Rest(1) + more;
  }

  /** One round on a full harness takes one more session above the quota. */
  lemma Round(s: State, max: nat) returns (path: seq<Event>)
    requires Full(s, max) && 1 <= max < WORD
    ensures var s' := RunFrom(s, max, path);
      && s'.procs == map[] && s'.counter == max && |s'.sessions| == |s.sessions| + 1 && s'.extra == s.extra + 1
    ensures Below(path, 2)
  {
    var first, id := FirstHalf(s, max);
    var second := SecondHalf(RunFrom(s, max, first), max, id);
    RunFromAppend(s, max, first, second);
    BelowAppend(first, second, 2);
    path := first + second;
  }

  lemma {:induction false} WithoutAbsent(sessions: seq<string>, id: string)
    requires id !in sessions
    ensures Without(sessions, id) == sessions
    decreases |sessions|
  {
    if sessions != [] {
      EndsOf(sessions);
      WithoutAbsent(Init(sessions), id);
    }
  }

  /** The bound of the quota is reached: for every quota and every number of excess releases there
      is a run, with never more than two operations in flight, that ends with exactly so many
      sessions above the quota. */
  lemma {:induction false} QuotaBoundReached(max: nat, n: nat) returns (path: seq<Event>)
    requires 1 <= max < WORD
    ensures var s := Run(max, path);
      && s.procs == map[] && s.counter == max && s.extra == n
      && Held(s) == |s.sessions| == max + n
    ensures Below(path, 2)
  {
    if n == 0 {
      path := FillUp(max, max, 2);
    } else {
      var before := QuotaBoundReached(max, n - 1);
      SandboxesAccounted(max, before);
      var more := Round(Run(max, before), max);
      RunFromAppend(Start, max, before, more);
      BelowAppend(before, more, 2);
      path := before + more;
    }
    assert Holders(Run(max, path).procs) == {};
  }

  /** The other harm: a counter below zero shows a huge value, so that every start is refused. */
  lemma NegativeCounterRefuses(s: State, max: nat, staging: Staging, sid: Option<string>)
    requires max as int - WORD <= s.counter < 0
    ensures StartEffect(s, max, staging, sid) == s
    ensures forall pid: nat :: pid !in s.procs ==> Step(s, max, Event(pid, Reserve)).procs == s.procs[pid := Refused]
  {
    assert Wrapped(s.counter) == s.counter + WORD;
  }

  /** Two stops of the only session, one after the other but both found first. */
  lemma StopOnlySession(s: State, max: nat) returns (path: seq<Event>)
    requires s.procs == map[] && |s.sessions| == 1
    ensures var s' := RunFrom(s, max, path);
      s'.procs == map[] && s'.sessions == [] && s'.counter == s.counter - 2
    ensures Below(path, 2)
  {
    var id := s.sessions[0];
    var finds := [Event(0, FindSession(id)), Event(1, FindSession(id))];
    TwoFinds(s, max);
    var found := RunFrom(s, max, finds);
    OverlappingStopsOverRelease(found, max, 0, 1);
    OnlyOne(s.sessions);
    RunFromAppend(s, max, finds, Rest(0) + Rest(1));
    path := finds + (Rest(0) + Rest(1));
  }

  lemma OnlyOne(sessions: seq<string>)
    requires |sessions| == 1
    ensures Without(Without(sessions, sessions[0]), sessions[0]) == []
  {
    WithoutRemoves(sessions, sessions[0]);
    assert Init(sessions) == [];
  }

  /** It is reached for every quota: one session, stopped twice at once, leaves a harness without
      any session that refuses every start. */
  lemma ClosedAfterOverlap(max: nat) returns (path: seq<Event>)
    requires 1 <= max < WORD
    ensures var s := Run(max, path);
      && s.procs == map[] && s.sessions == [] && s.counter == -1
      && forall staging, sid :: StartEffect(s, max, staging, sid) == s
    ensures Below(path, 2)
  {
    var fill := FillUp(max, 1, 2);
    var stops := StopOnlySession(Run(max, fill), max);
    RunFromAppend(Start, max, fill, stops);
    BelowAppend(fill, stops, 2);
    path := fill + stops;
    forall staging, sid
      ensures StartEffect(Run(max, path), max, staging, sid) == Run(max, path)
    {
      NegativeCounterRefuses(Run(max, path), max, staging, sid);
    }
  }

  // ----- When a reservation is granted -------------------------------------------------------

  /** What the next reservation gets. */
  function NextReservation(s: State, max: nat, pid: nat): Proc
    requires pid !in s.procs
  {
    Step(s, max, Event(pid, Reserve)).procs[pid]
  }

  /** A reservation is granted exactly if the slots held and the refusals not yet undone make up
      for the releases in excess and leave a slot; if they do not even make up for them it is
      refused as well. */
  lemma ReservationGrantedIff(max: nat, limit: nat, events: seq<Event>, pid: nat)
    requires Bounded(max, limit, events) && pid !in Run(max, events).procs
    requires max + Run(max, events).extra <= WORD
    ensures var s := Run(max, events);
      NextReservation(s, max, pid)
        == if s.extra <= Held(s) + |Overshoot(s.procs)| < max + s.extra then Reserved else Refused
  {
    QuotaInEveryInterleaving(max, limit, events);
    InFlightBelow(max, limit, events);
    CardBelow(Overshoot(Run(max, events).procs), limit);
    var c := Run(max, events).counter;
    assert c < WORD && max as int - WORD <= c;
    assert Wrapped(c) == if c >= 0 then c else c + WORD;
  }

  /** With one stop per session id: a reservation is granted if and only if the slots held and the
      refusals not yet undone together leave a slot. */
  lemma SoleReservationGrantedIff(max: nat, limit: nat, events: seq<Event>, pid: nat)
    requires Bounded(max, limit, events) && SoleStops(max, events) && pid !in Run(max, events).procs
    ensures var s := Run(max, events);
      NextReservation(s, max, pid).Reserved? <==> Held(s) + |Overshoot(s.procs)| < max
  {
    SoleStopsKeepQuota(max, limit, events);
    ReservationGrantedIff(max, limit, events, pid);
  }

  /** From one slot short of full: a reservation is granted, the next one refused, and the granted
      one given back before the refused one undoes its addition. */
  lemma Overshooting(s: State, max: nat) returns (path: seq<Event>)
    requires s.procs == map[] && s.counter == max - 1 && 1 <= max < WORD
    ensures RunFrom(s, max, path) == s.(counter := s.counter + 1, procs := map[1 := Refused])
    ensures Below(path, 2) && NoFinds(path)
  {
    var a, b, c, d := Event(0, Reserve), Event(1, Reserve), Event(0, Prepare(NotCreated)), Event(0, Release);
    RunFromFour(s, max, a, b, c, d);
    ReserveStep(s, max, 0);
    var s1 := Step(s, max, a);
    ReserveStep(s1, max, 1);
    var s2 := Step(s1, max, b);
    NotCreatedStep(s2, max, 0);
    var s3 := Step(s2, max, c);
    StopReleases(s3, max, 0);
    OnlyRefusedLeft(s.procs);
    path := [a, b, c, d];
  }

  lemma ReserveStep(s: State, max: nat, pid: nat)
    requires pid !in s.procs
    ensures Step(s, max, Event(pid, Reserve))
         == s.(counter := s.counter + 1, procs := s.procs[pid := if Wrapped(s.counter) >= max then Refused else Reserved])
  {
  }

  lemma NotCreatedStep(s: State, max: nat, pid: nat)
    requires pid in s.procs && s.procs[pid] == Reserved
    ensures Step(s, max, Event(pid, Prepare(NotCreated))) == s.(procs := s.procs[pid := Releasing(true)])
  {
  }

  lemma OnlyRefusedLeft(procs: map<nat, Proc>)
    requires procs == map[]
    ensures procs[0 := Reserved][1 := Refused][0 := Releasing(true)] - {0} == map[1 := Refused]
  {
  }

  /** So a start can be refused while a slot is free: for every quota there is a run without any
      stop that ends with a free slot and in which the next reservation is refused. */
  lemma SpuriousRefusal(max: nat) returns (path: seq<Event>)
    requires 1 <= max && max + 2 < WORD
    ensures Bounded(max, 2, path) && SoleStops(max, path)
    ensures var s := Run(max, path);
      0 !in s.procs && Held(s) == max - 1 && NextReservation(s, max, 0) == Refused
  {
    var fill := FillUp(max, max - 1, 2);
    var more := Overshooting(Run(max, fill), max);
    RunFromAppend(Start, max, fill, more);
    BelowAppend(fill, more, 2);
    path := fill + more;
    NoFindsSole(max, path);
    RefusedWhileFree(Run(max, path), max);
  }

  lemma RefusedWhileFree(s: State, max: nat)
    requires s.procs == map[1 := Refused] && s.counter == max < WORD
    ensures 0 !in s.procs && Held(s) == |s.sessions| && NextReservation(s, max, 0) == Refused
  {
    assert Holders(s.procs) == {};
    ReserveStep(s, max, 0);
  }
}
