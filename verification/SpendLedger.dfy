/** The spend ledger: totals by decision key, desk and strategy, in machine words. */
module SpendLedger {
  import opened Prelude

  datatype DecisionKey = DecisionKey(desk: string, strategy: string, decisionId: string)

  type Micro = n: nat | n < U64
  type Tokens = n: nat | n < U32

  const U64: nat := 0x1_0000_0000_0000_0000
  const U32: nat := 0x1_0000_0000

  datatype Spend = Spend(micro: Micro, tokens: Tokens, key: Option<DecisionKey>)

  datatype Amount = Amount(micro: Micro, tokens: Tokens)

  datatype Scope = Desk(name: string) | Strategy(name: string) | Global

  datatype Cap = Money(cap: Micro) | TokenCap(tokens: Tokens)

  datatype Exceeded = Exceeded(scope: Scope, spent: nat)

  const Zero := Amount(0, 0)

  /** Additions wrap around, as they do in a release build. */
  function Plus(a: Amount, s: Spend): Amount {
    Amount((a.micro + s.micro) % U64, (a.tokens + s.tokens) % U32)
  }

  function At(m: map<string, Amount>, k: string): Amount {
    if k in m then m[k] else Zero
  }

  function Canonical(k: DecisionKey): string {
    k.desk + "/" + k.strategy + "/" + k.decisionId
  }

  datatype Ledger = Ledger(byKey: map<string, Amount>, byDesk: map<string, Amount>, byStrategy: map<string, Amount>, total: Amount)

  function Record(l: Ledger, s: Spend): Ledger {
    if s.key.None? then l.(total := Plus(l.total, s))
    else
      var k := s.key.value;
      Ledger(l.byKey[Canonical(k) := Plus(At(l.byKey, Canonical(k)), s)],
             l.byDesk[k.desk := Plus(At(l.byDesk, k.desk), s)],
             l.byStrategy[k.strategy := Plus(At(l.byStrategy, k.strategy), s)],
             Plus(l.total, s))
  }

  function RecordAll(log: seq<Spend>): Ledger {
    if log == [] then Ledger(map[], map[], map[], Zero) else Record(RecordAll(Init(log)), Last(log))
  }

  function ScopeSpend(l: Ledger, scope: Scope): Amount {
    match scope
    case Global => l.total
    case Desk(d) => At(l.byDesk, d)
    case Strategy(s) => At(l.byStrategy, s)
  }

  function Check(l: Ledger, scope: Scope, cap: Cap): Result<(), Exceeded> {
    var spent := ScopeSpend(l, scope);
    match cap
    case Money(c) => if spent.micro > c then Err(Exceeded(scope, spent.micro)) else Ok(())
    case TokenCap(c) => if spent.tokens > c then Err(Exceeded(scope, spent.tokens)) else Ok(())
  }

  class LedgerObject {
    var byKey: map<string, Amount>
    var byDesk: map<string, Amount>
    var byStrategy: map<string, Amount>
    var total: Amount

    constructor ()
      ensures State() == RecordAll([])
    {
      byKey, byDesk, byStrategy, total := map[], map[], map[], Zero;
    }

    function State(): Ledger
      reads this
    {
      Ledger(byKey, byDesk, byStrategy, total)
    }

    method RecordSpend(s: Spend)
      modifies this
      ensures State() == Record(old(State()), s)
    {
      total := Plus(total, s);
      if s.key.Some? {
        var k := s.key.value;
        byKey := byKey[Canonical(k) := Plus(At(byKey, Canonical(k)), s)];
        byDesk := byDesk[k.desk := Plus(At(byDesk, k.desk), s)];
        byStrategy := byStrategy[k.strategy := Plus(At(byStrategy, k.strategy), s)];
      }
    }

    method SpendBy(k: DecisionKey) returns (micro: Micro)
      ensures micro == At(State().byKey, Canonical(k)).micro
    {
      micro := if Canonical(k) in byKey then byKey[Canonical(k)].micro else 0;
    }

    method CheckBudget(scope: Scope, cap: Cap) returns (r: Result<(), Exceeded>)
      ensures r == Check(State(), scope, cap)
    {
      var spent: Amount;
      match scope {
        case Global => spent := total;
        case Desk(d) => spent := At(byDesk, d);
        case Strategy(s) => spent := At(byStrategy, s);
      }
      match cap {
        case Money(c) => r := if spent.micro > c then Err(Exceeded(scope, spent.micro)) else Ok(());
        case TokenCap(c) => r := if spent.tokens > c then Err(Exceeded(scope, spent.tokens)) else Ok(());
      }
    }
  }

  // ----- Reading the ledger off the log -------------------------------------------

  function SumMicro(log: seq<Spend>, f: Spend -> bool): nat {
    if log == [] then 0 else SumMicro(Init(log), f) + if f(Last(log)) then Last(log).micro else 0
  }

  function SumTokens(log: seq<Spend>, f: Spend -> bool): nat {
    if log == [] then 0 else SumTokens(Init(log), f) + if f(Last(log)) then Last(log).tokens else 0
  }

  /** The true sums over the spends that satisfy a condition, reduced to machine words. */
  function Reduced(log: seq<Spend>, f: Spend -> bool): Amount {
    Amount(SumMicro(log, f) % U64, SumTokens(log, f) % U32)
  }

  function OnCanonical(c: string): Spend -> bool {
    (s: Spend) => s.key.Some? && Canonical(s.key.value) == c
  }

  function OnDesk(d: string): Spend -> bool {
    (s: Spend) => s.key.Some? && s.key.value.desk == d
  }

  function OnStrategy(n: string): Spend -> bool {
    (s: Spend) => s.key.Some? && s.key.value.strategy == n
  }

  function OnKey(k: DecisionKey): Spend -> bool {
    (s: Spend) => s.key == Some(k)
  }

  function InScope(scope: Scope): Spend -> bool {
    match scope
    case Global => (s: Spend) => true
    case Desk(d) => OnDesk(d)
    case Strategy(n) => OnStrategy(n)
  }

  lemma PlusReduces(log: seq<Spend>, s: Spend, f: Spend -> bool)
    ensures Reduced(log + [s], f) == if f(s) then Plus(Reduced(log, f), s) else Reduced(log, f)
  {
    InitSnoc(log, s);
    ReduceMicro(SumMicro(log, f), s.micro);
    ReduceTokens(SumTokens(log, f), s.tokens);
  }

  lemma ReduceMicro(a: nat, b: nat)
    ensures (a % U64 + b) % U64 == (a + b) % U64
  {
    var q := a / U64;
    assert a == U64 * q + a % U64;
  }

  lemma ReduceTokens(a: nat, b: nat)
    ensures (a % U32 + b) % U32 == (a + b) % U32
  {
    var q := a / U32;
    assert a == U32 * q + a % U32;
  }

  /** Every table entry is the true sum over its own spends, reduced to a machine word. */
  lemma {:induction false} TablesReadTheLog(log: seq<Spend>, name: string)
    ensures At(RecordAll(log).byKey, name) == Reduced(log, OnCanonical(name))
    ensures At(RecordAll(log).byDesk, name) == Reduced(log, OnDesk(name))
    ensures At(RecordAll(log).byStrategy, name) == Reduced(log, OnStrategy(name))
    ensures RecordAll(log).total == Reduced(log, InScope(Global))
    decreases |log|
  {
    if log != [] {
      TablesReadTheLog(Init(log), name);
      assert log == Init(log) + [Last(log)];
      PlusReduces(Init(log), Last(log), OnCanonical(name));
      PlusReduces(Init(log), Last(log), OnDesk(name));
      PlusReduces(Init(log), Last(log), OnStrategy(name));
      PlusReduces(Init(log), Last(log), InScope(Global));
    }
  }

  lemma ScopeReadsTheLog(log: seq<Spend>, scope: Scope)
    ensures ScopeSpend(RecordAll(log), scope) == Reduced(log, InScope(scope))
  {
    match scope
    case Global => TablesReadTheLog(log, "");
    case Desk(d) => TablesReadTheLog(log, d);
    case Strategy(n) => TablesReadTheLog(log, n);
  }

  lemma ReducedIsExact(log: seq<Spend>, f: Spend -> bool)
    ensures SumMicro(log, f) < U64 ==> Reduced(log, f).micro == SumMicro(log, f)
    ensures SumTokens(log, f) < U32 ==> Reduced(log, f).tokens == SumTokens(log, f)
  {
  }

  /** A budget check fails exactly when the scope's true spend exceeds the cap, as long as that
      spend fits its machine word; the reported amount is then the true spend. */
  lemma CheckIsExact(log: seq<Spend>, scope: Scope, cap: Cap)
    requires cap.Money? ==> SumMicro(log, InScope(scope)) < U64
    requires cap.TokenCap? ==> SumTokens(log, InScope(scope)) < U32
    ensures var spent := if cap.Money? then SumMicro(log, InScope(scope)) else SumTokens(log, InScope(scope));
      var limit := if cap.Money? then cap.cap else cap.tokens;
      Check(RecordAll(log), scope, cap) == if spent > limit then Err(Exceeded(scope, spent)) else Ok(())
  {
    ScopeReadsTheLog(log, scope);
    ReducedIsExact(log, InScope(scope));
  }

  /** What a caller expects of a check: the true spend of the scope against the cap. */
  predicate ExactFor(log: seq<Spend>, scope: Scope, cap: Cap) {
    match cap
    case Money(c) => Check(RecordAll(log), scope, cap).Err? <==> SumMicro(log, InScope(scope)) > c
    case TokenCap(c) => Check(RecordAll(log), scope, cap).Err? <==> SumTokens(log, InScope(scope)) > c
  }

  /** A scope's checks are exact for every cap of a kind if and only if its true spend of that
      kind fits the machine word it is summed in. */
  lemma CheckIsExactIffFits(log: seq<Spend>, scope: Scope)
    ensures (forall c: Micro :: ExactFor(log, scope, Money(c))) <==> SumMicro(log, InScope(scope)) < U64
    ensures (forall c: Tokens :: ExactFor(log, scope, TokenCap(c))) <==> SumTokens(log, InScope(scope)) < U32
  {
    ScopeReadsTheLog(log, scope);
    ReducedIsExact(log, InScope(scope));
    if SumMicro(log, InScope(scope)) >= U64 {
      assert !ExactFor(log, scope, Money(U64 - 1));
    }
    if SumTokens(log, InScope(scope)) >= U32 {
      assert !ExactFor(log, scope, TokenCap(U32 - 1));
    }
  }

  /** Two spends of 2^31 tokens pass any token cap. */
  lemma TokenCapWraps(cap: Tokens)
    ensures var s := Spend(0, 0x8000_0000, None);
      Check(RecordAll([s, s]), Global, TokenCap(cap)).Ok? && SumTokens([s, s], InScope(Global)) == U32
  {
    var s := Spend(0, 0x8000_0000, None);
    assert Init([s, s]) == [s] && Init([s]) == [];
    assert SumTokens([s], InScope(Global)) == 0x8000_0000;
    assert RecordAll([s]).total == Amount(0, 0x8000_0000);
  }

  // ----- Conservation --------------------------------------------------------------

  ghost function TableMicro(m: map<string, Amount>): nat {
    if m == map[] then 0
    else
      var k :| k in m;
      m[k].micro + TableMicro(m - {k})
  }

  ghost function TableTokens(m: map<string, Amount>): nat {
    if m == map[] then 0
    else
      var k :| k in m;
      m[k].tokens + TableTokens(m - {k})
  }

  lemma TableSplit(m: map<string, Amount>, k: string)
    requires k in m
    ensures TableMicro(m) == m[k].micro + TableMicro(m - {k})
    ensures TableTokens(m) == m[k].tokens + TableTokens(m - {k})
  {
    TableSplitMicro(m, k);
    TableSplitTokens(m, k);
  }

  lemma {:induction false} TableSplitMicro(m: map<string, Amount>, k: string)
    requires k in m
    ensures TableMicro(m) == m[k].micro + TableMicro(m - {k})
    decreases |m|
  {
    var l :| l in m && TableMicro(m) == m[l].micro + TableMicro(m - {l});
    if l != k {
      TableSplitMicro(m - {l}, k);
      TableSplitMicro(m - {k}, l);
      assert (m - {l}) - {k} == (m - {k}) - {l};
    }
  }

  lemma {:induction false} TableSplitTokens(m: map<string, Amount>, k: string)
    requires k in m
    ensures TableTokens(m) == m[k].tokens + TableTokens(m - {k})
    decreases |m|
  {
    var l :| l in m && TableTokens(m) == m[l].tokens + TableTokens(m - {l});
    if l != k {
      TableSplitTokens(m - {l}, k);
      TableSplitTokens(m - {k}, l);
      assert (m - {l}) - {k} == (m - {k}) - {l};
    }
  }

  function Fitting(a: Amount, s: Spend): bool {
    a.micro + s.micro < U64 && a.tokens + s.tokens < U32
  }

  lemma PostingAdds(m: map<string, Amount>, k: string, s: Spend)
    requires Fitting(At(m, k), s)
    ensures var m' := m[k := Plus(At(m, k), s)];
      TableMicro(m') == TableMicro(m) + s.micro && TableTokens(m') == TableTokens(m) + s.tokens
  {
    var m' := m[k := Plus(At(m, k), s)];
    TableSplit(m', k);
    assert m' - {k} == m - {k};
    if k in m {
      TableSplit(m, k);
    } else {
      assert m - {k} == m;
    }
  }

  function Attributed(): Spend -> bool {
    (s: Spend) => s.key.Some?
  }

  function Unattributed(): Spend -> bool {
    (s: Spend) => s.key.None?
  }

  lemma {:induction false} SumsSplit(log: seq<Spend>, f: Spend -> bool)
    ensures SumMicro(log, f) <= SumMicro(log, InScope(Global)) && SumTokens(log, f) <= SumTokens(log, InScope(Global))
    ensures SumMicro(log, InScope(Global)) == SumMicro(log, Attributed()) + SumMicro(log, Unattributed())
    ensures SumTokens(log, InScope(Global)) == SumTokens(log, Attributed()) + SumTokens(log, Unattributed())
    decreases |log|
  {
    if log != [] {
      SumsSplit(Init(log), f);
    }
  }

  ghost predicate Posted(m: map<string, Amount>, log: seq<Spend>) {
    TableMicro(m) == SumMicro(log, Attributed()) && TableTokens(m) == SumTokens(log, Attributed())
  }

  lemma EntryFits(log: seq<Spend>, f: Spend -> bool)
    requires log != [] && f(Last(log))
    requires SumMicro(log, InScope(Global)) < U64 && SumTokens(log, InScope(Global)) < U32
    ensures Fitting(Reduced(Init(log), f), Last(log))
  {
    SumsSplit(log, f);
  }

  /** Posting the last spend of a log to its entry of a roll-up keeps the roll-up's sum. */
  lemma PostingKeeps(log: seq<Spend>, m: map<string, Amount>, k: string, f: Spend -> bool)
    requires log != [] && Last(log).key.Some? && f(Last(log))
    requires SumMicro(log, InScope(Global)) < U64 && SumTokens(log, InScope(Global)) < U32
    requires Posted(m, Init(log)) && At(m, k) == Reduced(Init(log), f)
    ensures Posted(m[k := Plus(At(m, k), Last(log))], log)
  {
    EntryFits(log, f);
    PostingAdds(m, k, Last(log));
  }

  /** The three roll-ups each sum to the attributed spend. */
  ghost predicate Conserved(l: Ledger, log: seq<Spend>) {
    Posted(l.byKey, log) && Posted(l.byDesk, log) && Posted(l.byStrategy, log)
  }

  lemma AttributedStep(log: seq<Spend>)
    requires log != [] && Last(log).key.Some?
    requires SumMicro(log, InScope(Global)) < U64 && SumTokens(log, InScope(Global)) < U32
    requires Conserved(RecordAll(Init(log)), Init(log))
    ensures Conserved(RecordAll(log), log)
  {
    var prev, k := RecordAll(Init(log)), Last(log).key.value;
    TablesReadTheLog(Init(log), Canonical(k));
    PostingKeeps(log, prev.byKey, Canonical(k), OnCanonical(Canonical(k)));
    TablesReadTheLog(Init(log), k.desk);
    PostingKeeps(log, prev.byDesk, k.desk, OnDesk(k.desk));
    TablesReadTheLog(Init(log), k.strategy);
    PostingKeeps(log, prev.byStrategy, k.strategy, OnStrategy(k.strategy));
  }

  lemma {:induction false} RollUpsPosted(log: seq<Spend>)
    requires SumMicro(log, InScope(Global)) < U64 && SumTokens(log, InScope(Global)) < U32
    ensures Conserved(RecordAll(log), log)
    decreases |log|
  {
    if log != [] {
      RollUpsPosted(Init(log));
      if Last(log).key.Some? {
        AttributedStep(log);
      }
    }
  }

  /** Conservation: while the grand totals fit their words, the per-key, per-desk and per-strategy
      tables each sum to the same attributed spend, which together with the unattributed spend is
      the global total. */
  lemma RollUpsConserve(log: seq<Spend>)
    requires SumMicro(log, InScope(Global)) < U64 && SumTokens(log, InScope(Global)) < U32
    ensures var l := RecordAll(log);
      && TableMicro(l.byKey) == TableMicro(l.byDesk) == TableMicro(l.byStrategy) == SumMicro(log, Attributed())
      && TableTokens(l.byKey) == TableTokens(l.byDesk) == TableTokens(l.byStrategy) == SumTokens(log, Attributed())
      && l.total.micro == SumMicro(log, Attributed()) + SumMicro(log, Unattributed())
      && l.total.tokens == SumTokens(log, Attributed()) + SumTokens(log, Unattributed())
  {
    RollUpsPosted(log);
    ScopeReadsTheLog(log, Global);
    ReducedIsExact(log, InScope(Global));
    SumsSplit(log, Attributed());
  }

  // ----- Conservation beyond the words -------------------------------------------------

  /** The two numbers agree as machine words. */
  predicate SameMicro(a: int, b: int) {
    (a - b) % U64 == 0
  }

  predicate SameTokens(a: int, b: int) {
    (a - b) % U32 == 0
  }

  /** Agreement as machine words carries over along a posting of `x`. */
  lemma MicroFollows(a: int, b: int, c: int, x: int)
    requires SameMicro(a, b) && SameMicro(c, a + x)
    ensures SameMicro(c, b + x)
  {
  }

  lemma TokensFollow(a: int, b: int, c: int, x: int)
    requires SameTokens(a, b) && SameTokens(c, a + x)
    ensures SameTokens(c, b + x)
  {
  }

  lemma WordsAgree(micro: nat, tokens: nat)
    ensures SameMicro(micro % U64, micro) && SameTokens(tokens % U32, tokens)
  {
  }

  ghost predicate PostedModulo(m: map<string, Amount>, log: seq<Spend>) {
    && SameMicro(TableMicro(m), SumMicro(log, Attributed()))
    && SameTokens(TableTokens(m), SumTokens(log, Attributed()))
  }

  lemma PostingAddsModulo(m: map<string, Amount>, k: string, s: Spend)
    ensures var m' := m[k := Plus(At(m, k), s)];
      && SameMicro(TableMicro(m'), TableMicro(m) + s.micro)
      && SameTokens(TableTokens(m'), TableTokens(m) + s.tokens)
  {
    var m' := m[k := Plus(At(m, k), s)];
    TableSplit(m', k);
    assert m' - {k} == m - {k};
    if k in m {
      TableSplit(m, k);
    } else {
      assert m - {k} == m;
    }
  }

  lemma PostingKeepsModulo(m: map<string, Amount>, log: seq<Spend>, k: string)
    requires log != [] && Last(log).key.Some? && PostedModulo(m, Init(log))
    ensures PostedModulo(m[k := Plus(At(m, k), Last(log))], log)
  {
    var s, m', init := Last(log), m[k := Plus(At(m, k), Last(log))], Init(log);
    PostingAddsModulo(m, k, s);
    MicroFollows(TableMicro(m), SumMicro(init, Attributed()), TableMicro(m'), s.micro);
    TokensFollow(TableTokens(m), SumTokens(init, Attributed()), TableTokens(m'), s.tokens);
  }

  lemma {:induction false} RollUpsPostedModulo(log: seq<Spend>)
    ensures PostedModulo(RecordAll(log).byKey, log)
    ensures PostedModulo(RecordAll(log).byDesk, log)
    ensures PostedModulo(RecordAll(log).byStrategy, log)
    decreases |log|
  {
    if log != [] {
      RollUpsPostedModulo(Init(log));
      if Last(log).key.Some? {
        var prev, k := RecordAll(Init(log)), Last(log).key.value;
        PostingKeepsModulo(prev.byKey, log, Canonical(k));
        PostingKeepsModulo(prev.byDesk, log, k.desk);
        PostingKeepsModulo(prev.byStrategy, log, k.strategy);
      }
    }
  }

  /** The table and the unattributed spend make up the total, as machine words. */
  ghost predicate MakesUp(l: Ledger, t: map<string, Amount>, log: seq<Spend>) {
    && SameMicro(l.total.micro, TableMicro(t) + SumMicro(log, Unattributed()))
    && SameTokens(l.total.tokens, TableTokens(t) + SumTokens(log, Unattributed()))
  }

  lemma PostedMakesUp(log: seq<Spend>, t: map<string, Amount>)
    requires PostedModulo(t, log)
    ensures MakesUp(RecordAll(log), t, log)
  {
    var micro, tokens := SumMicro(log, Attributed()), SumTokens(log, Attributed());
    ScopeReadsTheLog(log, Global);
    SumsSplit(log, Attributed());
    WordsAgree(SumMicro(log, InScope(Global)), SumTokens(log, InScope(Global)));
    MicroMakesUp(TableMicro(t), micro, RecordAll(log).total.micro, SumMicro(log, Unattributed()));
    TokensMakeUp(TableTokens(t), tokens, RecordAll(log).total.tokens, SumTokens(log, Unattributed()));
  }

  lemma MicroMakesUp(a: int, b: int, c: int, x: int)
    requires SameMicro(a, b) && SameMicro(c, b + x)
    ensures SameMicro(c, a + x)
  {
  }

  lemma TokensMakeUp(a: int, b: int, c: int, x: int)
    requires SameTokens(a, b) && SameTokens(c, b + x)
    ensures SameTokens(c, a + x)
  {
  }

  /** Conservation on every log, also after words have wrapped around: each of the three tables
      together with the unattributed spend makes up the global total, as machine words. */
  lemma RollUpsConserveModulo(log: seq<Spend>)
    ensures var l := RecordAll(log);
      MakesUp(l, l.byKey, log) && MakesUp(l, l.byDesk, log) && MakesUp(l, l.byStrategy, log)
  {
    var l := RecordAll(log);
    RollUpsPostedModulo(log);
    PostedMakesUp(log, l.byKey);
    PostedMakesUp(log, l.byDesk);
    PostedMakesUp(log, l.byStrategy);
  }

  // ----- Canonical keys ---------------------------------------------------------------

  function Slashes(s: string): nat {
    if s == "" then 0 else Slashes(s[1..]) + if s[0] == '/' then 1 else 0
  }

  predicate Plain(k: DecisionKey) {
    '/' !in k.desk && '/' !in k.strategy && '/' !in k.decisionId
  }

  lemma {:induction false} SlashesAdd(a: string, b: string)
    ensures Slashes(a + b) == Slashes(a) + Slashes(b)
    decreases |a|
  {
    if a == "" {
      assert a + b == b;
    } else {
      SlashesAdd(a[1..], b);
      assert (a + b)[1..] == a[1..] + b;
    }
  }

  lemma {:induction false} NoSlashes(s: string)
    ensures Slashes(s) == 0 <==> '/' !in s
  {
    if s != "" {
      NoSlashes(s[1..]);
      assert s == [s[0]] + s[1..];
    }
  }

  lemma SlashesOfCanonical(k: DecisionKey)
    ensures Slashes(Canonical(k)) == Slashes(k.desk) + Slashes(k.strategy) + Slashes(k.decisionId) + 2
  {
    SlashesAdd(k.desk + "/" + k.strategy + "/", k.decisionId);
    SlashesAdd(k.desk + "/" + k.strategy, "/");
    SlashesAdd(k.desk + "/", k.strategy);
    SlashesAdd(k.desk, "/");
    assert Slashes("/") == 1 by { assert "/"[1..] == ""; }
  }

  lemma FirstSlash(a: string, x: string, b: string, y: string)
    requires '/' !in a && '/' !in b && a + "/" + x == b + "/" + y
    ensures a == b && x == y
  {
    var t := a + "/" + x;
    assert t[|a|] == '/' && t[|b|] == '/';
    assert forall i :: 0 <= i < |a| ==> t[i] == a[i] && a[i] in a;
    assert forall i :: 0 <= i < |b| ==> t[i] == b[i] && b[i] in b;
    assert |a| == |b|;
    assert a == t[..|a|] && b == t[..|b|];
    assert x == t[|a| + 1..] && y == t[|b| + 1..];
  }

  /** Keys whose desk and strategy contain no slash have distinct canonical forms. */
  lemma CanonicalInjective(k: DecisionKey, l: DecisionKey)
    requires '/' !in k.desk && '/' !in k.strategy && '/' !in l.desk && '/' !in l.strategy
    requires Canonical(k) == Canonical(l)
    ensures k == l
  {
    assert Canonical(k) == k.desk + "/" + (k.strategy + "/" + k.decisionId);
    assert Canonical(l) == l.desk + "/" + (l.strategy + "/" + l.decisionId);
    FirstSlash(k.desk, k.strategy + "/" + k.decisionId, l.desk, l.strategy + "/" + l.decisionId);
    FirstSlash(k.strategy, k.decisionId, l.strategy, l.decisionId);
  }

  lemma SplitAtSlash(s: string) returns (a: string, b: string)
    requires '/' in s
    ensures s == a + "/" + b
  {
    var i :| 0 <= i < |s| && s[i] == '/';
    a, b := s[..i], s[i + 1..];
  }

  /** Another key with the same canonical form, when one of the fields has a slash. */
  lemma Collision(k: DecisionKey) returns (l: DecisionKey)
    requires !Plain(k)
    ensures l != k && Canonical(l) == Canonical(k)
  {
    if '/' in k.desk {
      var a, b := SplitAtSlash(k.desk);
      l := DecisionKey(a, b + "/" + k.strategy, k.decisionId);
    } else if '/' in k.strategy {
      var a, b := SplitAtSlash(k.strategy);
      l := DecisionKey(k.desk + "/" + a, b, k.decisionId);
    } else {
      var a, b := SplitAtSlash(k.decisionId);
      l := DecisionKey(k.desk, k.strategy + "/" + a, b);
    }
  }

  lemma PlainStandsAlone(k: DecisionKey, l: DecisionKey)
    requires Plain(k) && Canonical(k) == Canonical(l)
    ensures k == l
  {
    SlashesOfCanonical(k);
    SlashesOfCanonical(l);
    NoSlashes(k.desk);
    NoSlashes(k.strategy);
    NoSlashes(k.decisionId);
    NoSlashes(l.desk);
    NoSlashes(l.strategy);
    CanonicalInjective(k, l);
  }

  lemma {:induction false} SameSpends(log: seq<Spend>, f: Spend -> bool, g: Spend -> bool)
    requires forall s <- log :: f(s) == g(s)
    ensures SumMicro(log, f) == SumMicro(log, g)
    decreases |log|
  {
    if log != [] {
      assert Last(log) in log;
      SameSpends(Init(log), f, g);
    }
  }

  function SpendOf(log: seq<Spend>, k: DecisionKey): Micro {
    At(RecordAll(log).byKey, Canonical(k)).micro
  }

  /** Where `spend_by` is exact: it answers a key's own spend on every log if and only if the key
      has no slash in any field. */
  lemma SpendByExactIffPlain(k: DecisionKey)
    ensures (forall log :: SpendOf(log, k) == SumMicro(log, OnKey(k)) % U64) <==> Plain(k)
  {
    if Plain(k) {
      forall log
        ensures SpendOf(log, k) == SumMicro(log, OnKey(k)) % U64
      {
        TablesReadTheLog(log, Canonical(k));
        forall s | s in log
          ensures OnCanonical(Canonical(k))(s) == OnKey(k)(s)
        {
          if s.key.Some? && Canonical(s.key.value) == Canonical(k) {
            PlainStandsAlone(k, s.key.value);
          }
        }
        SameSpends(log, OnCanonical(Canonical(k)), OnKey(k));
      }
    } else {
      var l := Collision(k);
      var log := [Spend(1, 0, Some(l))];
      TablesReadTheLog(log, Canonical(k));
      assert Init(log) == [];
      assert SumMicro(log, OnCanonical(Canonical(k))) == 1 && SumMicro(log, OnKey(k)) == 0;
      assert SpendOf(log, k) != SumMicro(log, OnKey(k)) % U64;
    }
  }

  /** Over a log all of whose keys, and the queried one, have slash-free desks and strategies,
      `spend_by` is exact whatever the decision ids are. */
  lemma SpendByExactOnSlashFreeLog(log: seq<Spend>, k: DecisionKey)
    requires '/' !in k.desk && '/' !in k.strategy
    requires forall s <- log :: s.key.Some? ==> '/' !in s.key.value.desk && '/' !in s.key.value.strategy
    ensures SpendOf(log, k) == SumMicro(log, OnKey(k)) % U64
  {
    TablesReadTheLog(log, Canonical(k));
    forall s | s in log
      ensures OnCanonical(Canonical(k))(s) == OnKey(k)(s)
    {
      if s.key.Some? && Canonical(s.key.value) == Canonical(k) {
        CanonicalInjective(k, s.key.value);
      }
    }
    SameSpends(log, OnCanonical(Canonical(k)), OnKey(k));
  }
}
