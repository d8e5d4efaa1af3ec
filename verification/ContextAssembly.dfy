/** The context assembler: greedy packing of prioritized fragments into a token budget. */
module ContextAssembly {
  import opened Prelude

  datatype Fragment = Fragment(source: string, priority: nat, tokens: nat, text: string)

  /** A fragment with its original position. */
  datatype Entry = Entry(index: nat, frag: Fragment)

  const U32: nat := 0x1_0000_0000

  class TokenBudget {
    var remaining: nat

    constructor (total: nat)
      ensures remaining == total
    {
      remaining := total;
    }

    /** Fails without effect exactly when `n` exceeds what remains. */
    method Consume(n: nat) returns (ok: bool)
      modifies this
      ensures ok <==> n <= old(remaining)
      ensures remaining == if ok then old(remaining) - n else old(remaining)
    {
      if n > remaining {
        return false;
      }
      remaining := remaining - n;
      ok := true;
    }
  }

  // ----- The order of eviction --------------------------------------------------

  /** Fragment `i` goes before `j`: higher priority first, ties by position. */
  predicate Before(frags: seq<Fragment>, i: nat, j: nat)
    requires i < |frags| && j < |frags|
  {
    frags[i].priority > frags[j].priority || (frags[i].priority == frags[j].priority && i < j)
  }

  /** Token cost of the chosen positions below `n`. */
  function Cost(frags: seq<Fragment>, chosen: set<nat>, n: nat): nat
    requires n <= |frags|
  {
    if n == 0 then 0 else Cost(frags, chosen, n - 1) + if n - 1 in chosen then frags[n - 1].tokens else 0
  }

  /** The chosen fragments among the first `n`, in their original order. */
  function Select(frags: seq<Fragment>, chosen: set<nat>, n: nat): seq<Fragment>
    requires n <= |frags|
  {
    if n == 0 then [] else Select(frags, chosen, n - 1) + if n - 1 in chosen then [frags[n - 1]] else []
  }

  ghost predicate Choice(frags: seq<Fragment>, chosen: set<nat>) {
    forall i <- chosen :: i < |frags|
  }

  ghost predicate Fits(frags: seq<Fragment>, chosen: set<nat>, budget: nat) {
    Choice(frags, chosen) && Cost(frags, chosen, |frags|) <= budget
  }

  /** At the first position, in eviction order, where the two choices differ, `a` keeps the
      fragment and `b` drops it. */
  ghost predicate Better(frags: seq<Fragment>, a: set<nat>, b: set<nat>) {
    exists d :: 0 <= d < |frags| && d in a && d !in b
      && forall e :: 0 <= e < |frags| && Before(frags, e, d) ==> (e in a <==> e in b)
  }

  /** The choice fits and is lexicographically better than every other choice that fits. */
  ghost predicate Greatest(frags: seq<Fragment>, chosen: set<nat>, budget: nat) {
    && Fits(frags, chosen, budget)
    && forall other :: Fits(frags, other, budget) && other != chosen ==> Better(frags, chosen, other)
  }

  /** There is at most one such choice. */
  lemma GreatestIsUnique(frags: seq<Fragment>, a: set<nat>, b: set<nat>, budget: nat)
    requires Greatest(frags, a, budget) && Greatest(frags, b, budget)
    ensures a == b
  {
    if a != b {
      assert Better(frags, a, b) && Better(frags, b, a);
      var d :| 0 <= d < |frags| && d in a && d !in b
        && forall e :: 0 <= e < |frags| && Before(frags, e, d) ==> (e in a <==> e in b);
      var d' :| 0 <= d' < |frags| && d' in b && d' !in a
        && forall e :: 0 <= e < |frags| && Before(frags, e, d') ==> (e in b <==> e in a);
    }
  }

  // ----- Greedy choices are greatest ----------------------------------------------

  function EarlierChosen(frags: seq<Fragment>, chosen: set<nat>, d: nat): set<nat>
    requires d < |frags|
  {
    set e | e in chosen && e < |frags| && Before(frags, e, d)
  }

  /** Every dropped fragment would have exceeded the budget on top of the fragments kept before it. */
  ghost predicate Greedy(frags: seq<Fragment>, chosen: set<nat>, budget: nat) {
    && Fits(frags, chosen, budget)
    && forall d :: 0 <= d < |frags| && d !in chosen
         ==> Cost(frags, EarlierChosen(frags, chosen, d), |frags|) + frags[d].tokens > budget
  }

  lemma {:induction false} CostMonotone(frags: seq<Fragment>, a: set<nat>, b: set<nat>, n: nat)
    requires n <= |frags| && forall i :: 0 <= i < n && i in a ==> i in b
    ensures Cost(frags, a, n) <= Cost(frags, b, n)
  {
    if n > 0 {
      CostMonotone(frags, a, b, n - 1);
    }
  }

  lemma {:induction false} CostAdd(frags: seq<Fragment>, a: set<nat>, d: nat, n: nat)
    requires n <= |frags| && d < |frags| && d !in a
    ensures Cost(frags, a + {d}, n) == Cost(frags, a, n) + if d < n then frags[d].tokens else 0
  {
    if n > 0 {
      CostAdd(frags, a, d, n - 1);
    }
  }

  /** A non-empty set of positions has a first one in eviction order. */
  lemma {:induction false} FirstOf(frags: seq<Fragment>, s: set<nat>) returns (d: nat)
    requires s != {} && Choice(frags, s)
    ensures d in s && forall e <- s :: e != d ==> Before(frags, d, e)
    decreases |s|
  {
    d :| d in s;
    if s != {d} {
      var d' := FirstOf(frags, s - {d});
      assert forall e <- s :: e == d || e in s - {d};
      if Before(frags, d', d) {
        d := d';
      }
    }
  }

  lemma GreedyBeats(frags: seq<Fragment>, chosen: set<nat>, budget: nat, other: set<nat>)
    requires Greedy(frags, chosen, budget) && Fits(frags, other, budget) && other != chosen
    ensures Better(frags, chosen, other)
  {
    var diff := (chosen - other) + (other - chosen);
    assert diff == {} ==> chosen == other by {
      assert forall i :: i !in diff ==> (i in chosen <==> i in other);
    }
    var d := FirstOf(frags, diff);
    assert forall e :: 0 <= e < |frags| && Before(frags, e, d) ==> e !in diff;
    assert forall e :: 0 <= e < |frags| && Before(frags, e, d) ==> (e in chosen <==> e in other);
    if d in other {
      var earlier := EarlierChosen(frags, chosen, d);
      CostAdd(frags, earlier, d, |frags|);
      CostMonotone(frags, earlier + {d}, other, |frags|);
    }
  }

  /** The greedy result is the lexicographically greatest choice that fits. */
  lemma GreedyIsGreatest(frags: seq<Fragment>, chosen: set<nat>, budget: nat)
    requires Greedy(frags, chosen, budget)
    ensures Greatest(frags, chosen, budget)
  {
    forall other | Fits(frags, other, budget) && other != chosen
      ensures Better(frags, chosen, other)
    {
      GreedyBeats(frags, chosen, budget, other);
    }
  }

  // ----- Sorting --------------------------------------------------------------------

  predicate Precedes(byPriority: bool, a: Entry, b: Entry) {
    if byPriority then a.frag.priority > b.frag.priority || (a.frag.priority == b.frag.priority && a.index < b.index)
    else a.index < b.index
  }

  function Insert(byPriority: bool, e: Entry, s: seq<Entry>): seq<Entry> {
    if s == [] then [e]
    else if Precedes(byPriority, e, s[0]) then [e] + s
    else [s[0]] + Insert(byPriority, e, s[1..])
  }

  /** The library's sort, by priority and position or by position alone. */
  function Sorted(byPriority: bool, s: seq<Entry>): seq<Entry> {
    if s == [] then [] else Insert(byPriority, s[0], Sorted(byPriority, s[1..]))
  }

  predicate Distinct(s: seq<Entry>) {
    forall i, j :: 0 <= i < j < |s| ==> s[i].index != s[j].index
  }

  predicate InOrder(byPriority: bool, s: seq<Entry>) {
    forall i, j :: 0 <= i < j < |s| ==> Precedes(byPriority, s[i], s[j])
  }

  lemma {:induction false} InsertSorts(byPriority: bool, e: Entry, s: seq<Entry>)
    requires InOrder(byPriority, s) && forall x <- s :: x.index != e.index
    ensures InOrder(byPriority, Insert(byPriority, e, s))
    ensures forall x :: x in Insert(byPriority, e, s) <==> x == e || x in s
  {
    if s != [] && !Precedes(byPriority, e, s[0]) {
      var rest := Insert(byPriority, e, s[1..]);
      assert s == [s[0]] + s[1..];
      assert InOrder(byPriority, s[1..]);
      InsertSorts(byPriority, e, s[1..]);
      assert s[0] in s;
      forall x | x in rest
        ensures Precedes(byPriority, s[0], x)
      {
        if x != e {
          var k :| 0 <= k < |s[1..]| && s[1..][k] == x;
          assert s[k + 1] == x;
        }
      }
    }
  }

  lemma {:induction false} SortedSorts(byPriority: bool, s: seq<Entry>)
    requires Distinct(s)
    ensures InOrder(byPriority, Sorted(byPriority, s))
    ensures forall x :: x in Sorted(byPriority, s) <==> x in s
  {
    if s != [] {
      assert s == [s[0]] + s[1..];
      SortedSorts(byPriority, s[1..]);
      assert forall x <- s[1..] :: x.index != s[0].index;
      InsertSorts(byPriority, s[0], Sorted(byPriority, s[1..]));
    }
  }

  // ----- The assembler ------------------------------------------------------------------

  datatype Rendered = Rendered(fragments: seq<Fragment>, totalTokens: nat)

  function Entries(frags: seq<Fragment>): seq<Entry> {
    seq(|frags|, i requires 0 <= i < |frags| => Entry(i, frags[i]))
  }

  function Indices(entries: seq<Entry>): set<nat> {
    set e | e in entries :: e.index
  }

  predicate FromFragments(frags: seq<Fragment>, entries: seq<Entry>) {
    forall e <- entries :: e.index < |frags| && e.frag == frags[e.index]
  }

  function Sum(frags: seq<Fragment>): nat {
    if frags == [] then 0 else Sum(Init(frags)) + Last(frags).tokens
  }

  lemma {:induction false} SumOfSelect(frags: seq<Fragment>, chosen: set<nat>, n: nat)
    requires n <= |frags|
    ensures Sum(Select(frags, chosen, n)) == Cost(frags, chosen, n)
  {
    if n > 0 {
      SumOfSelect(frags, chosen, n - 1);
      if n - 1 in chosen {
        assert Init(Select(frags, chosen, n)) == Select(frags, chosen, n - 1);
      } else {
        assert Select(frags, chosen, n) == Select(frags, chosen, n - 1);
      }
    }
  }

  /** The output is the chosen fragments in input order: those at ascending positions, which are exactly
      the chosen ones. */
  ghost predicate InInputOrder(frags: seq<Fragment>, chosen: set<nat>, out: seq<Fragment>) {
    exists at :: PickedAt(frags, chosen, out, at)
  }

  ghost predicate PickedAt(frags: seq<Fragment>, chosen: set<nat>, out: seq<Fragment>, at: seq<nat>) {
    && |at| == |out| && (forall k, l :: 0 <= k < l < |at| ==> at[k] < at[l])
    && (forall k :: 0 <= k < |at| ==> at[k] < |frags| && out[k] == frags[at[k]])
    && forall i: nat :: i in at <==> i in chosen
  }

  lemma {:induction false} SelectedAt(frags: seq<Fragment>, chosen: set<nat>, n: nat) returns (at: seq<nat>)
    requires n <= |frags|
    ensures |at| == |Select(frags, chosen, n)| && (forall k, l :: 0 <= k < l < |at| ==> at[k] < at[l])
    ensures forall k :: 0 <= k < |at| ==> at[k] < n && Select(frags, chosen, n)[k] == frags[at[k]]
    ensures forall i: nat :: i in at <==> i in chosen && i < n
  {
    at := [];
    if n > 0 {
      var before := SelectedAt(frags, chosen, n - 1);
      at := before + if n - 1 in chosen then [n - 1] else [];
    }
  }

  lemma SelectionInOrder(frags: seq<Fragment>, chosen: set<nat>)
    requires Choice(frags, chosen)
    ensures InInputOrder(frags, chosen, Select(frags, chosen, |frags|))
  {
    var at := SelectedAt(frags, chosen, |frags|);
    assert PickedAt(frags, chosen, Select(frags, chosen, |frags|), at);
  }

  lemma {:induction false} SelectAll(frags: seq<Fragment>, all: set<nat>, n: nat)
    requires n <= |frags| && forall i :: 0 <= i < n ==> i in all
    ensures Select(frags, all, n) == frags[..n] && Cost(frags, all, n) == Sum(frags[..n])
  {
    if n > 0 {
      SelectAll(frags, all, n - 1);
      assert Init(frags[..n]) == frags[..n - 1];
    }
  }

  function Everything(n: nat): set<nat> {
    if n == 0 then {} else Everything(n - 1) + {n - 1}
  }

  lemma {:induction false} EverythingHolds(n: nat)
    ensures forall i: nat :: i in Everything(n) <==> i < n
  {
    if n > 0 {
      EverythingHolds(n - 1);
    }
  }

  class ContextAssembler {
    /** Packs the fragments into what remains of the budget. The result is the unique
        lexicographically greatest choice that fits, in input order; the budget drops by exactly
        its cost, which never leaves the 32-bit range; the call never fails. */
    static method Assemble(frags: seq<Fragment>, budget: TokenBudget) returns (r: Rendered, ghost chosen: set<nat>)
      requires budget.remaining < U32
      modifies budget
      ensures Greedy(frags, chosen, old(budget.remaining))
      ensures Greatest(frags, chosen, old(budget.remaining))
      ensures InInputOrder(frags, chosen, r.fragments)
      ensures r.totalTokens == Sum(r.fragments) == Cost(frags, chosen, |frags|) < U32
      ensures budget.remaining == old(budget.remaining) - r.totalTokens
    {
      var indexed := Entries(frags);
      var total := Total(frags);
      if total <= budget.remaining {
        chosen := Everything(|frags|);
        EverythingHolds(|frags|);
        SelectAll(frags, chosen, |frags|);
        assert frags[..|frags|] == frags;
        GreedyIsGreatest(frags, chosen, budget.remaining);
        SelectionInOrder(frags, chosen);
        var ok := budget.Consume(total);
        return Rendered(frags, total), chosen;
      }
      SortedSorts(true, indexed);
      assert forall i :: 0 <= i < |frags| ==> indexed[i] == Entry(i, frags[i]);
      var kept: seq<Entry>;
      kept, chosen := Pack(frags, Sorted(true, indexed), budget.remaining);
      GreedyIsGreatest(frags, chosen, budget.remaining);
      SortedSorts(false, kept);
      var out := Fragments(frags, Sorted(false, kept), chosen);
      SumOfSelect(frags, chosen, |frags|);
      SelectionInOrder(frags, chosen);
      var sum := Total(out);
      var ok := budget.Consume(sum);
      r := Rendered(out, sum);
    }

    static method Total(frags: seq<Fragment>) returns (total: nat)
      ensures total == Sum(frags)
    {
      total := 0;
      for i := 0 to |frags|
        invariant total == Sum(frags[..i])
      {
        assert Init(frags[..i + 1]) == frags[..i];
        total := total + frags[i].tokens;
      }
      assert frags[..|frags|] == frags;
    }

    /** The greedy loop over the fragments in eviction order. */
    static method Pack(frags: seq<Fragment>, order: seq<Entry>, budget: nat) returns (kept: seq<Entry>, ghost chosen: set<nat>)
      requires InOrder(true, order) && FromFragments(frags, order)
      requires forall i :: 0 <= i < |frags| ==> Entry(i, frags[i]) in order
      ensures Greedy(frags, chosen, budget)
      ensures Distinct(kept) && FromFragments(frags, kept) && chosen == Indices(kept)
    {
      kept, chosen := [], {};
      var acc := 0;
      CostOfNone(frags, |frags|);
      for k := 0 to |order|
        invariant chosen == Indices(kept) && FromFragments(frags, kept) && Distinct(kept)
        invariant forall i <- chosen :: Entry(i, frags[i]) in order[..k]
        invariant acc == Cost(frags, chosen, |frags|) <= budget
        invariant forall j :: 0 <= j < k && order[j].index !in chosen ==> Rejected(frags, chosen, budget, order[j].index)
      {
        var e := order[k];
        assert e in order;
        ghost var was := chosen;
        forall i | i in chosen
          ensures Before(frags, i, e.index)
        {
          var j :| 0 <= j < k && order[..k][j] == Entry(i, frags[i]);
          assert Precedes(true, order[j], order[k]);
        }
        if acc + e.frag.tokens <= budget {
          CostAdd(frags, chosen, e.index, |frags|);
          acc := acc + e.frag.tokens;
          kept := kept + [e];
          chosen := chosen + {e.index};
          forall j | 0 <= j < k && order[j].index !in chosen
            ensures Rejected(frags, chosen, budget, order[j].index)
          {
            assert order[j] in order && Precedes(true, order[j], order[k]);
            assert EarlierChosen(frags, chosen, order[j].index) == EarlierChosen(frags, was, order[j].index);
          }
        } else {
          assert EarlierChosen(frags, chosen, e.index) == chosen;
        }
        assert order[..k + 1] == order[..k] + [e];
      }
      forall d | 0 <= d < |frags| && d !in chosen
        ensures Rejected(frags, chosen, budget, d)
      {
        var j :| 0 <= j < |order| && order[j] == Entry(d, frags[d]);
      }
    }

    static method Fragments(frags: seq<Fragment>, entries: seq<Entry>, ghost chosen: set<nat>) returns (out: seq<Fragment>)
      requires InOrder(false, entries) && FromFragments(frags, entries) && chosen == Indices(entries)
      ensures out == Select(frags, chosen, |frags|)
    {
      out := [];
      ghost var upTo: nat := 0;
      for k := 0 to |entries|
        invariant upTo <= |frags| && out == Select(frags, chosen, upTo)
        invariant forall j :: 0 <= j < k ==> entries[j].index < upTo
        invariant forall j :: k <= j < |entries| ==> upTo <= entries[j].index
      {
        var e := entries[k];
        assert e in entries;
        SkipUnchosen(frags, entries, chosen, k, upTo);
        out := out + [e.frag];
        upTo := e.index + 1;
      }
      SkipToEnd(frags, entries, chosen, upTo);
    }
  }

  ghost predicate Rejected(frags: seq<Fragment>, chosen: set<nat>, budget: nat, d: nat) {
    d < |frags| && Cost(frags, EarlierChosen(frags, chosen, d), |frags|) + frags[d].tokens > budget
  }

  lemma {:induction false} CostOfNone(frags: seq<Fragment>, n: nat)
    requires n <= |frags|
    ensures Cost(frags, {}, n) == 0
  {
    if n > 0 {
      CostOfNone(frags, n - 1);
    }
  }

  lemma {:induction false} SkipRange(frags: seq<Fragment>, chosen: set<nat>, lo: nat, hi: nat)
    requires lo <= hi <= |frags| && forall i :: lo <= i < hi ==> i !in chosen
    ensures Select(frags, chosen, hi) == Select(frags, chosen, lo)
    decreases hi
  {
    if lo < hi {
      SkipRange(frags, chosen, lo, hi - 1);
    }
  }

  lemma SkipUnchosen(frags: seq<Fragment>, entries: seq<Entry>, chosen: set<nat>, k: nat, upTo: nat)
    requires InOrder(false, entries) && FromFragments(frags, entries) && chosen == Indices(entries)
    requires k < |entries| && upTo <= entries[k].index < |frags|
    requires forall j :: 0 <= j < k ==> entries[j].index < upTo
    ensures Select(frags, chosen, entries[k].index) == Select(frags, chosen, upTo)
    ensures entries[k].index in chosen
  {
    forall e | e in entries
      ensures e.index < upTo || entries[k].index <= e.index
    {
      var j :| 0 <= j < |entries| && entries[j] == e;
      assert j > k ==> Precedes(false, entries[k], entries[j]);
    }
    SkipRange(frags, chosen, upTo, entries[k].index);
    assert entries[k] in entries;
  }

  lemma SkipToEnd(frags: seq<Fragment>, entries: seq<Entry>, chosen: set<nat>, upTo: nat)
    requires chosen == Indices(entries) && upTo <= |frags|
    requires forall e <- entries :: e.index < upTo
    ensures Select(frags, chosen, |frags|) == Select(frags, chosen, upTo)
  {
    SkipRange(frags, chosen, upTo, |frags|);
  }

  /** Eviction is not by priority alone: under pressure a small fragment of low priority is kept
      while a larger one of higher priority is dropped. */
  lemma SmallerFragmentSurvives(high: string, middle: string, low: string)
    ensures var frags := [Fragment(high, 9, 60, high), Fragment(middle, 5, 50, middle), Fragment(low, 1, 30, low)];
      Greatest(frags, {0, 2}, 90) && frags[1].priority > frags[2].priority
  {
    var frags := [Fragment(high, 9, 60, high), Fragment(middle, 5, 50, middle), Fragment(low, 1, 30, low)];
    assert Cost(frags, {0, 2}, 1) == 60 && Cost(frags, {0, 2}, 2) == 60;
    assert EarlierChosen(frags, {0, 2}, 1) == {0};
    assert Cost(frags, {0}, 1) == 60 && Cost(frags, {0}, 2) == 60;
    GreedyIsGreatest(frags, {0, 2}, 90);
  }

  // ----- When eviction is by priority alone -------------------------------------------

  function EarlierAll(frags: seq<Fragment>, d: nat): set<nat>
    requires d < |frags|
  {
    set e: nat | e < |frags| && Before(frags, e, d)
  }

  /** The fragments up to `d`, in eviction order, do not fit together. */
  ghost predicate Overflows(frags: seq<Fragment>, budget: nat, d: nat) {
    d < |frags| && Cost(frags, EarlierAll(frags, d), |frags|) + frags[d].tokens > budget
  }

  /** Fragment `d` is where the budget is first exceeded. */
  ghost predicate FirstOverflow(frags: seq<Fragment>, budget: nat, d: nat) {
    Overflows(frags, budget, d) && forall e :: 0 <= e < |frags| && Before(frags, e, d) ==> !Overflows(frags, budget, e)
  }

  /** No fragment after the one that first exceeds the budget would fit in its place. */
  ghost predicate NoLaterFits(frags: seq<Fragment>, budget: nat) {
    forall d, j :: 0 <= d < |frags| && 0 <= j < |frags| && FirstOverflow(frags, budget, d) && Before(frags, d, j)
      ==> Cost(frags, EarlierAll(frags, d), |frags|) + frags[j].tokens > budget
  }

  /** Every kept fragment goes before every dropped one. */
  predicate ByPriority(frags: seq<Fragment>, chosen: set<nat>) {
    forall k, d :: 0 <= k < |frags| && 0 <= d < |frags| && k in chosen && d !in chosen ==> Before(frags, k, d)
  }

  /** Up to the first overflow everything is kept, and the overflowing fragment is dropped. */
  lemma KeptUpTo(frags: seq<Fragment>, chosen: set<nat>, budget: nat, d: nat)
    requires Greedy(frags, chosen, budget) && d < |frags| && FirstOverflow(frags, budget, d)
    ensures EarlierAll(frags, d) <= chosen && d !in chosen
  {
    forall e | e in EarlierAll(frags, d)
      ensures e in chosen
    {
      if e !in chosen {
        CostMonotone(frags, EarlierChosen(frags, chosen, e), EarlierAll(frags, e), |frags|);
        assert Overflows(frags, budget, e);
      }
    }
    if d in chosen {
      CostAdd(frags, EarlierAll(frags, d), d, |frags|);
      CostMonotone(frags, EarlierAll(frags, d) + {d}, chosen, |frags|);
    }
  }

  /** The first overflow, if something is dropped. */
  lemma SomethingOverflows(frags: seq<Fragment>, chosen: set<nat>, budget: nat) returns (d: nat)
    requires Greedy(frags, chosen, budget) && exists e :: 0 <= e < |frags| && e !in chosen
    ensures d < |frags| && FirstOverflow(frags, budget, d)
  {
    var over := set e: nat | e < |frags| && Overflows(frags, budget, e);
    var e :| 0 <= e < |frags| && e !in chosen;
    CostMonotone(frags, EarlierChosen(frags, chosen, e), EarlierAll(frags, e), |frags|);
    assert e in over;
    d := FirstOf(frags, over);
    assert forall x <- over :: !Before(frags, x, d);
  }

  lemma KeptFits(frags: seq<Fragment>, chosen: set<nat>, budget: nat, d: nat, k: nat)
    requires Fits(frags, chosen, budget) && d < |frags| && k in chosen
    requires EarlierAll(frags, d) <= chosen
    ensures Before(frags, d, k) ==> Cost(frags, EarlierAll(frags, d), |frags|) + frags[k].tokens <= budget
  {
    if Before(frags, d, k) {
      CostAdd(frags, EarlierAll(frags, d), k, |frags|);
      CostMonotone(frags, EarlierAll(frags, d) + {k}, chosen, |frags|);
    }
  }

  /** Exactly when eviction is lowest priority first: the kept fragments are the ones of highest
      priority if and only if no fragment after the first that exceeds the budget would fit in its
      place. */
  lemma EvictsByPriorityIff(frags: seq<Fragment>, chosen: set<nat>, budget: nat)
    requires Greedy(frags, chosen, budget)
    ensures ByPriority(frags, chosen) <==> NoLaterFits(frags, budget)
  {
    if ByPriority(frags, chosen) {
      forall d, j | 0 <= d < |frags| && 0 <= j < |frags| && FirstOverflow(frags, budget, d) && Before(frags, d, j)
        ensures Cost(frags, EarlierAll(frags, d), |frags|) + frags[j].tokens > budget
      {
        KeptUpTo(frags, chosen, budget, d);
        assert j !in chosen;
        CostMonotone(frags, EarlierChosen(frags, chosen, j), EarlierAll(frags, d), |frags|);
      }
    }
    if NoLaterFits(frags, budget) {
      forall k, d | 0 <= k < |frags| && 0 <= d < |frags| && k in chosen && d !in chosen
        ensures Before(frags, k, d)
      {
        var first := SomethingOverflows(frags, chosen, budget);
        KeptUpTo(frags, chosen, budget, first);
        KeptFits(frags, chosen, budget, first, k);
      }
    }
  }
}
