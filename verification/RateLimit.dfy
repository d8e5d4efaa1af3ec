/** The token-bucket rate limiter, in exact arithmetic: times are in seconds. */
module RateLimit {
  import opened Prelude

  datatype Bucket = Bucket(tokens: real, last: real)

  function Min(a: real, b: real): real {
    if a <= b then a else b
  }

  /** The bucket at time `now`, refilled up to its capacity. A clock reading before the last one
      counts as no time passed. */
  function Refilled(b: Bucket, capacity: nat, refill: nat, now: real): real {
    var elapsed := if now > b.last then now - b.last else 0.0;
    Min(b.tokens + elapsed * refill as real, capacity as real)
  }

  function TryTake(b: Bucket, capacity: nat, refill: nat, now: real): (Bucket, bool) {
    var tokens := Refilled(b, capacity, refill, now);
    if tokens >= 1.0 then (Bucket(tokens - 1.0, now), true) else (Bucket(tokens, now), false)
  }

  /** A sequence of calls by any number of callers. */
  function After(b: Bucket, capacity: nat, refill: nat, times: seq<real>): Bucket {
    if times == [] then b else TryTake(After(b, capacity, refill, Init(times)), capacity, refill, Last(times)).0
  }

  function Grants(b: Bucket, capacity: nat, refill: nat, times: seq<real>): nat {
    if times == [] then 0
    else Grants(b, capacity, refill, Init(times))
         + if TryTake(After(b, capacity, refill, Init(times)), capacity, refill, Last(times)).1 then 1 else 0
  }

  /** A waiting caller polls at `polls(0)`, `polls(1)`, ...; between poll `k` and the next one the
      calls `others(k)` of other callers happen. Returns the bucket after `n` refused polls. */
  function Waiting(b: Bucket, capacity: nat, refill: nat, polls: nat -> real, others: nat -> seq<real>, n: nat): Bucket {
    if n == 0 then b
    else
      var polled := TryTake(Waiting(b, capacity, refill, polls, others, n - 1), capacity, refill, polls(n - 1)).0;
      After(polled, capacity, refill, others(n - 1))
  }

  /** Poll `n` is granted. */
  predicate GrantedAt(b: Bucket, capacity: nat, refill: nat, polls: nat -> real, others: nat -> seq<real>, n: nat) {
    TryTake(Waiting(b, capacity, refill, polls, others, n), capacity, refill, polls(n)).1
  }

  const BACKOFF_MS := 50
  const GIVE_UP_MS := 10_000
  const MAX_POLLS := 201

  class RateLimiter {
    const capacity: nat
    const refillPerSec: nat
    var tokens: real
    var last: real

    constructor (capacity: nat, refillPerSec: nat, now: real)
      ensures this.capacity == capacity && this.refillPerSec == refillPerSec
      ensures State() == Bucket(capacity as real, now)
    {
      this.capacity, this.refillPerSec := capacity, refillPerSec;
      tokens, last := capacity as real, now;
    }

    function State(): Bucket
      reads this
    {
      Bucket(tokens, last)
    }

    method TryTakeNow(now: real) returns (granted: bool)
      modifies this
      ensures (State(), granted) == TryTake(old(State()), capacity, refillPerSec, now)
    {
      var elapsed := if now > last then now - last else 0.0;
      tokens := Min(tokens + elapsed * refillPerSec as real, capacity as real);
      last := now;
      if tokens >= 1.0 {
        tokens := tokens - 1.0;
        granted := true;
      } else {
        granted := false;
      }
    }

    /** The waiting call: polls every 50 ms until granted, gives up once it has waited more than
        10 s. Other callers use the bucket while it sleeps. */
    method BeforeModelCall(polls: nat -> real, others: nat -> seq<real>) returns (ok: bool, n: nat)
      modifies this
      ensures ok ==> n < MAX_POLLS && GrantedAt(old(State()), capacity, refillPerSec, polls, others, n)
      ensures ok ==> State() == TryTake(Waiting(old(State()), capacity, refillPerSec, polls, others, n), capacity, refillPerSec, polls(n)).0
      ensures !ok ==> n == MAX_POLLS && State() == Waiting(old(State()), capacity, refillPerSec, polls, others, n)
      ensures forall k :: 0 <= k < n ==> !GrantedAt(old(State()), capacity, refillPerSec, polls, others, k)
    {
      ghost var start := State();
      var waited := 0;
      n := 0;
      ok := TryTakeNow(polls(0));
      while !ok
        invariant waited == n * BACKOFF_MS && waited <= GIVE_UP_MS
        invariant State() == TryTake(Waiting(start, capacity, refillPerSec, polls, others, n), capacity, refillPerSec, polls(n)).0
        invariant ok == GrantedAt(start, capacity, refillPerSec, polls, others, n)
        invariant forall k :: 0 <= k < n ==> !GrantedAt(start, capacity, refillPerSec, polls, others, k)
        decreases MAX_POLLS - n, !ok
      {
        Interfere(others(n));
        waited := waited + BACKOFF_MS;
        n := n + 1;
        assert State() == Waiting(start, capacity, refillPerSec, polls, others, n);
        if waited > GIVE_UP_MS {
          return false, n;
        }
        ok := TryTakeNow(polls(n));
      }
    }

    method Interfere(times: seq<real>)
      modifies this
      ensures State() == After(old(State()), capacity, refillPerSec, times)
    {
      for i := 0 to |times|
        invariant State() == After(old(State()), capacity, refillPerSec, times[..i])
      {
        assert Init(times[..i + 1]) == times[..i];
        var granted := TryTakeNow(times[i]);
      }
      assert times[..|times|] == times;
    }
  }

  // ----- The rate bound ---------------------------------------------------------

  predicate Monotone(times: seq<real>) {
    forall i, j :: 0 <= i <= j < |times| ==> times[i] <= times[j]
  }

  predicate WithinCapacity(b: Bucket, capacity: nat) {
    0.0 <= b.tokens <= capacity as real
  }

  lemma RefillWithin(b: Bucket, capacity: nat, refill: nat, now: real)
    requires WithinCapacity(b, capacity)
    ensures 0.0 <= Refilled(b, capacity, refill, now) <= capacity as real
    ensures WithinCapacity(TryTake(b, capacity, refill, now).0, capacity)
  {
    var elapsed := if now > b.last then now - b.last else 0.0;
    assert elapsed * refill as real >= 0.0;
  }

  /** Tokens stay within [0, capacity] over every sequence of calls. */
  lemma {:induction false} TokensStayWithin(b: Bucket, capacity: nat, refill: nat, times: seq<real>)
    requires WithinCapacity(b, capacity)
    ensures WithinCapacity(After(b, capacity, refill, times), capacity)
    decreases |times|
  {
    if times != [] {
      TokensStayWithin(b, capacity, refill, Init(times));
      RefillWithin(After(b, capacity, refill, Init(times)), capacity, refill, Last(times));
    }
  }

  lemma Scale(a: real, b: real, c: real, n: real)
    ensures (b - a) * n + (c - b) * n == (c - a) * n
  {
  }

  lemma TakeFlow(b: Bucket, capacity: nat, refill: nat, now: real)
    requires b.last <= now
    ensures var (b', granted) := TryTake(b, capacity, refill, now);
      && b'.last == now
      && b'.tokens + (if granted then 1.0 else 0.0) == Refilled(b, capacity, refill, now)
      && Refilled(b, capacity, refill, now) <= b.tokens + (now - b.last) * refill as real
  {
  }

  /** What flows in during a time span. */
  function Inflow(from: real, to: real, refill: nat): real {
    (to - from) * refill as real
  }

  lemma InflowAdds(a: real, b: real, c: real, refill: nat)
    ensures Inflow(a, b, refill) + Inflow(b, c, refill) == Inflow(a, c, refill)
  {
    Scale(a, b, c, refill as real);
  }

  lemma CallAccounts(b: Bucket, capacity: nat, refill: nat, times: seq<real>)
    requires times != []
    ensures Grants(b, capacity, refill, times)
      == Grants(b, capacity, refill, Init(times)) + Bit(TryTake(After(b, capacity, refill, Init(times)), capacity, refill, Last(times)).1)
    ensures After(b, capacity, refill, times) == TryTake(After(b, capacity, refill, Init(times)), capacity, refill, Last(times)).0
  {
  }

  function Bit(b: bool): nat {
    if b then 1 else 0
  }

  /** Tokens spent and tokens left never exceed what was there plus what flowed in. */
  lemma {:induction false} Conservation(b: Bucket, capacity: nat, refill: nat, times: seq<real>)
    requires Monotone(times) && times != [] && b.last <= times[0]
    ensures After(b, capacity, refill, times).last == Last(times)
    ensures After(b, capacity, refill, times).tokens + Grants(b, capacity, refill, times) as real
         <= Refilled(b, capacity, refill, times[0]) + Inflow(times[0], Last(times), refill)
    decreases |times|
  {
    var earlier := Init(times);
    CallAccounts(b, capacity, refill, times);
    if earlier == [] {
      assert Inflow(times[0], Last(times), refill) == 0.0;
      TakeFlow(b, capacity, refill, times[0]);
    } else {
      Conservation(b, capacity, refill, earlier);
      assert Last(earlier) == times[|times| - 2] && earlier[0] == times[0];
      CallAdds(After(b, capacity, refill, earlier), capacity, refill, times[0], Last(times));
    }
  }

  lemma CallAdds(mid: Bucket, capacity: nat, refill: nat, from: real, now: real)
    requires mid.last <= now
    ensures var (b', granted) := TryTake(mid, capacity, refill, now);
      b'.last == now && b'.tokens + Bit(granted) as real + Inflow(from, mid.last, refill) <= mid.tokens + Inflow(from, now, refill)
  {
    TakeFlow(mid, capacity, refill, now);
    InflowAdds(from, mid.last, now, refill);
  }

  /** The rate bound: over every run with a clock that does not go back, between any two calls at
      times `s <= t`, inclusive, at most `capacity + refill * (t - s)` calls are granted. */
  lemma RateBound(b: Bucket, capacity: nat, refill: nat, before: seq<real>, window: seq<real>)
    requires WithinCapacity(b, capacity) && Monotone(before + window) && window != []
    requires b.last <= (before + window)[0]
    ensures Grants(After(b, capacity, refill, before), capacity, refill, window) as real
         <= capacity as real + (Last(window) - window[0]) * refill as real
  {
    var mid := After(b, capacity, refill, before);
    TokensStayWithin(b, capacity, refill, before);
    TokensStayWithin(mid, capacity, refill, window);
    assert Monotone(window) by {
      forall i, j | 0 <= i <= j < |window|
        ensures window[i] <= window[j]
      {
        assert (before + window)[|before| + i] == window[i] && (before + window)[|before| + j] == window[j];
      }
    }
    assert (before + window)[|before|] == window[0];
    if before != [] {
      assert Monotone(before) by {
        assert forall i :: 0 <= i < |before| ==> (before + window)[i] == before[i];
      }
      assert before[0] == (before + window)[0];
      Conservation(b, capacity, refill, before);
      assert Last(before) == (before + window)[|before| - 1];
    }
    Conservation(mid, capacity, refill, window);
    RefillWithin(mid, capacity, refill, window[0]);
  }

  /** The bound is reached: on a full bucket a burst of `n` calls at one instant is granted exactly
      `min(n, capacity)` times. */
  lemma {:induction false} BurstIsExact(b: Bucket, capacity: nat, refill: nat, times: seq<real>)
    requires b.tokens == capacity as real
    requires forall t <- times :: t == b.last
    ensures Grants(b, capacity, refill, times) == if |times| <= capacity then |times| else capacity
    ensures After(b, capacity, refill, times) == Bucket((capacity - Grants(b, capacity, refill, times)) as real, b.last)
    decreases |times|
  {
    if times != [] {
      assert forall t <- Init(times) :: t in times;
      BurstIsExact(b, capacity, refill, Init(times));
      assert Last(times) in times;
    }
  }

  // ----- Waiting is calling ------------------------------------------------------------

  /** The calls on the bucket up to poll `n`: each earlier poll, and after it those of other callers. */
  function CallTimes(polls: nat -> real, others: nat -> seq<real>, n: nat): seq<real> {
    if n == 0 then [] else CallTimes(polls, others, n - 1) + ([polls(n - 1)] + others(n - 1))
  }

  lemma {:induction false} AfterAppend(b: Bucket, capacity: nat, refill: nat, earlier: seq<real>, later: seq<real>)
    ensures After(b, capacity, refill, earlier + later) == After(After(b, capacity, refill, earlier), capacity, refill, later)
    decreases |later|
  {
    if later == [] {
      assert earlier + later == earlier;
    } else {
      AfterAppend(b, capacity, refill, earlier, Init(later));
      EndsOf(later);
      Assoc(earlier, Init(later), [Last(later)]);
      InitSnoc(earlier + Init(later), Last(later));
    }
  }

  /** A waiting caller is one caller among others: its polls, with the calls of others in between, are an
      ordinary sequence of calls on the bucket, so that the rate bound holds of them too; and a poll is
      granted exactly if one more call at its time is. */
  lemma {:induction false} WaitingIsCalling(b: Bucket, capacity: nat, refill: nat, polls: nat -> real, others: nat -> seq<real>, n: nat)
    ensures Waiting(b, capacity, refill, polls, others, n) == After(b, capacity, refill, CallTimes(polls, others, n))
    ensures Grants(b, capacity, refill, CallTimes(polls, others, n) + [polls(n)])
         == Grants(b, capacity, refill, CallTimes(polls, others, n)) + Bit(GrantedAt(b, capacity, refill, polls, others, n))
  {
    InitSnoc(CallTimes(polls, others, n), polls(n));
    if n > 0 {
      var earlier, poll, rest := CallTimes(polls, others, n - 1), polls(n - 1), others(n - 1);
      WaitingIsCalling(b, capacity, refill, polls, others, n - 1);
      AfterAppend(b, capacity, refill, earlier, [poll] + rest);
      AfterAppend(After(b, capacity, refill, earlier), capacity, refill, [poll], rest);
      assert Init([poll]) == [];
    }
  }

  // ----- A lone waiter ----------------------------------------------------------------

  /** Between polls at least the back-off passes. */
  predicate Paced(polls: nat -> real, from: real) {
    from <= polls(0) && forall k :: 0 <= k < MAX_POLLS ==> polls(k) + 0.05 <= polls(k + 1)
  }

  function NoOthers(): nat -> seq<real> {
    k => []
  }

  /** A refused call keeps everything that flowed in. */
  lemma RefusedGains(b: Bucket, capacity: nat, refill: nat, now: real)
    requires b.last <= now && capacity > 0 && !TryTake(b, capacity, refill, now).1
    ensures TryTake(b, capacity, refill, now).0 == Bucket(b.tokens + Inflow(b.last, now, refill), now)
    ensures b.tokens + Inflow(b.last, now, refill) < 1.0
  {
  }

  /** A refused lone waiter gains tokens at the refill rate. */
  lemma {:induction false} WaiterGains(b: Bucket, capacity: nat, refill: nat, polls: nat -> real, n: nat)
    requires Paced(polls, b.last) && n < MAX_POLLS && capacity > 0
    requires forall k :: 0 <= k <= n ==> !GrantedAt(b, capacity, refill, polls, NoOthers(), k)
    ensures Waiting(b, capacity, refill, polls, NoOthers(), n + 1)
         == Bucket(b.tokens + Inflow(b.last, polls(n), refill), polls(n))
    ensures b.tokens + Inflow(b.last, polls(n), refill) < 1.0
  {
    var prev := Waiting(b, capacity, refill, polls, NoOthers(), n);
    assert !GrantedAt(b, capacity, refill, polls, NoOthers(), n);
    if n == 0 {
      RefusedGains(b, capacity, refill, polls(0));
    } else {
      WaiterGains(b, capacity, refill, polls, n - 1);
      assert polls(n - 1) + 0.05 <= polls(n - 1 + 1);
      RefusedGains(prev, capacity, refill, polls(n));
      InflowAdds(b.last, polls(n - 1), polls(n), refill);
    }
  }

  lemma {:induction false} PacedAdvances(polls: nat -> real, from: real, n: nat)
    requires Paced(polls, from) && n <= MAX_POLLS
    ensures polls(n) >= from + 0.05 * n as real
  {
    if n > 0 {
      PacedAdvances(polls, from, n - 1);
      assert polls(n - 1) + 0.05 <= polls(n - 1 + 1);
    }
  }

  /** When a lone caller gives up: exactly when the bucket holds nothing by construction, or it is
      empty and never refilled. Otherwise one of its polls is granted. */
  lemma LoneWaiterGivesUpIff(b: Bucket, capacity: nat, refill: nat, polls: nat -> real)
    requires WithinCapacity(b, capacity) && Paced(polls, b.last)
    ensures (forall k :: 0 <= k < MAX_POLLS ==> !GrantedAt(b, capacity, refill, polls, NoOthers(), k))
       <==> capacity == 0 || (refill == 0 && b.tokens < 1.0)
  {
    if capacity == 0 {
      forall k | 0 <= k < MAX_POLLS
        ensures !GrantedAt(b, capacity, refill, polls, NoOthers(), k)
      {
      }
    } else if refill == 0 && b.tokens < 1.0 {
      NeverRefilled(b, capacity, polls, MAX_POLLS);
    } else if forall k :: 0 <= k < MAX_POLLS ==> !GrantedAt(b, capacity, refill, polls, NoOthers(), k) {
      StarvedWaiter(b, capacity, refill, polls);
    }
  }

  lemma {:induction false} TenSeconds(start: real, end: real, refill: nat)
    requires end - start >= 10.0 && refill > 0
    ensures Inflow(start, end, refill) >= 10.0
  {
    if refill > 1 {
      TenSeconds(start, end, refill - 1);
      assert Inflow(start, end, refill) == Inflow(start, end, refill - 1) + (end - start);
    }
  }

  lemma StarvedWaiter(b: Bucket, capacity: nat, refill: nat, polls: nat -> real)
    requires WithinCapacity(b, capacity) && Paced(polls, b.last) && capacity > 0
    requires forall k :: 0 <= k < MAX_POLLS ==> !GrantedAt(b, capacity, refill, polls, NoOthers(), k)
    ensures refill == 0 && b.tokens < 1.0
  {
    var end := polls(200);
    PacedAdvances(polls, b.last, 200);
    assert end - b.last >= 10.0;
    WaiterGains(b, capacity, refill, polls, 200);
    if refill > 0 {
      TenSeconds(b.last, end, refill);
    } else {
      assert Inflow(b.last, end, 0) == 0.0;
    }
  }

  lemma {:induction false} NeverRefilled(b: Bucket, capacity: nat, polls: nat -> real, n: nat)
    requires WithinCapacity(b, capacity) && b.tokens < 1.0
    ensures Waiting(b, capacity, 0, polls, NoOthers(), n).tokens == b.tokens
    ensures forall k :: 0 <= k < n ==> !GrantedAt(b, capacity, 0, polls, NoOthers(), k)
  {
    if n > 0 {
      NeverRefilled(b, capacity, polls, n - 1);
    }
  }
}
