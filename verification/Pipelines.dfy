/** Composition of callables: sequential and assigning stages, nested pipelines and fan-out, over
    effectful, fallible callables. */
module Pipelines {
  import opened Prelude

  datatype Value = Null | Bool(b: bool) | Num(n: int) | Str(s: string) | Arr(items: seq<Value>) | Obj(fields: map<string, Value>)

  datatype StageKind = Sequential | Assign

  /** A primitive callable by number, the pass-through, a built pipeline, or a fan-out whose
      branches are in ascending key order. */
  datatype Callable = Prim(id: nat) | Identity | Built(stages: seq<Stage>) | FanOut(branches: seq<Branch>)

  datatype Stage = Stage(kind: StageKind, key: Option<string>, callable: Callable)

  datatype Branch = Branch(key: string, callable: Callable)

  /** What the primitives do to a world of type `W`, and in which order the scheduler lets `n`
      concurrent tasks run in a given world. */
  datatype Env<!W> = Env(prim: (nat, Value, W) -> (Result<Value, string>, W), order: (nat, W) -> seq<nat>)

  // ----- Meaning -------------------------------------------------------------

  /** The result of `derived` added under a key; a non-object input is kept under `input`. */
  function Assigned(current: Value, key: string, derived: Value): Value {
    var obj := if current.Obj? then current.fields else map["input" := current];
    Obj(obj[key := derived])
  }

  function Call<W>(env: Env<W>, c: Callable, v: Value, w: W): (Result<Value, string>, W)
    decreases c, 0
  {
    match c
    case Prim(id) => env.prim(id, v, w)
    case Identity => (Ok(v), w)
    case Built(stages) => RunStages(env, stages, v, w)
    case FanOut(branches) =>
      var (slots, w') := RunTasks(env, branches, env.order(|branches|, w), v, w);
      (Await(branches, slots, 0, map[]), w')
  }

  function RunStage<W>(env: Env<W>, stage: Stage, v: Value, w: W): (Result<Value, string>, W)
    decreases stage, 0
  {
    match stage.kind
    case Sequential => Call(env, stage.callable, v, w)
    case Assign =>
      if stage.key.None? then (Err("assign without key"), w)
      else
        var (derived, w') := Call(env, stage.callable, v, w);
        if derived.Err? then (derived, w') else (Ok(Assigned(v, stage.key.value, derived.value)), w')
  }

  function RunStages<W>(env: Env<W>, stages: seq<Stage>, v: Value, w: W): (Result<Value, string>, W)
    decreases stages, 0
  {
    if stages == [] then (Ok(v), w)
    else
      var (r, w') := RunStage(env, stages[0], v, w);
      if r.Err? then (r, w') else RunStages(env, stages[1..], r.value, w')
  }

  /** The tasks of a fan-out, run in the scheduler's order; each leaves its result in its slot. */
  function RunTasks<W>(env: Env<W>, branches: seq<Branch>, order: seq<nat>, v: Value, w: W): (map<nat, Result<Value, string>>, W)
    decreases branches, |order|
  {
    if order == [] then (map[], w)
    else
      var (slots, w') := RunTasks(env, branches, Init(order), v, w);
      var i := Last(order);
      if i >= |branches| then (slots, w')
      else
        var (r, w'') := Call(env, branches[i].callable, v, w');
        (slots[i := r], w'')
  }

  /** Awaits the tasks in key order; the first failure in that order is the result. */
  function Await(branches: seq<Branch>, slots: map<nat, Result<Value, string>>, i: nat, out: map<string, Value>): Result<Value, string>
    requires i <= |branches|
    decreases |branches| - i
  {
    if i == |branches| then Ok(Obj(out))
    else if i !in slots then Err("join failed")
    else
      match slots[i]
      case Err(e) => Err(e)
      case Ok(x) => Await(branches, slots, i + 1, out[branches[i].key := x])
  }

  // ----- The loops ---------------------------------------------------------------

  method Invoke<W>(env: Env<W>, c: Callable, v: Value, w: W) returns (r: Result<Value, string>, w': W)
    ensures (r, w') == Call(env, c, v, w)
    decreases c, 0
  {
    match c {
      case Prim(id) =>
        var (r', w'') := env.prim(id, v, w);
        return r', w'';
      case Identity => return Ok(v), w;
      case Built(stages) => r, w' := CallPipeline(env, stages, v, w);
      case FanOut(branches) => r, w' := CallFanOut(env, branches, v, w);
    }
  }

  method CallPipeline<W>(env: Env<W>, stages: seq<Stage>, input: Value, w: W) returns (r: Result<Value, string>, w': W)
    ensures (r, w') == RunStages(env, stages, input, w)
    decreases stages, 1
  {
    var current := input;
    w' := w;
    for i := 0 to |stages|
      invariant RunStages(env, stages, input, w) == RunStages(env, stages[i..], current, w')
    {
      assert stages[i..][1..] == stages[i + 1..];
      r, w' := CallStage(env, stages[i], current, w');
      if r.Err? {
        return;
      }
      current := r.value;
    }
    r := Ok(current);
  }

  /** The body of the stage loop. */
  method CallStage<W>(env: Env<W>, stage: Stage, current: Value, w: W) returns (r: Result<Value, string>, w': W)
    ensures (r, w') == RunStage(env, stage, current, w)
    decreases stage, 1
  {
    match stage.kind {
      case Sequential =>
        r, w' := Invoke(env, stage.callable, current, w);
      case Assign =>
        if stage.key.None? {
          return Err("assign without key"), w;
        }
        r, w' := Invoke(env, stage.callable, current, w);
        if r.Ok? {
          r := Ok(Assigned(current, stage.key.value, r.value));
        }
    }
  }

  method CallFanOut<W>(env: Env<W>, branches: seq<Branch>, input: Value, w: W) returns (r: Result<Value, string>, w': W)
    ensures (r, w') == Call(env, FanOut(branches), input, w)
    decreases branches, 1
  {
    var order := env.order(|branches|, w);
    var slots: map<nat, Result<Value, string>> := map[];
    w' := w;
    for k := 0 to |order|
      invariant (slots, w') == RunTasks(env, branches, order[..k], input, w)
    {
      assert Init(order[..k + 1]) == order[..k];
      var i := order[k];
      if i < |branches| {
        var result: Result<Value, string>;
        result, w' := Invoke(env, branches[i].callable, input, w');
        slots := slots[i := result];
      }
    }
    assert order[..|order|] == order;
    var out: map<string, Value> := map[];
    for i := 0 to |branches|
      invariant Await(branches, slots, 0, map[]) == Await(branches, slots, i, out)
    {
      if i !in slots {
        return Err("join failed"), w';
      }
      match slots[i] {
        case Err(e) => return Err(e), w';
        case Ok(x) => out := out[branches[i].key := x];
      }
    }
    r := Ok(Obj(out));
  }

  // ----- The builder ------------------------------------------------------------------

  class Pipeline {
    var stages: seq<Stage>

    constructor From(c: Callable)
      ensures stages == [Stage(Sequential, None, c)]
    {
      stages := [Stage(Sequential, None, c)];
    }

    method Then(c: Callable)
      modifies this
      ensures stages == old(stages) + [Stage(Sequential, None, c)]
    {
      stages := stages + [Stage(Sequential, None, c)];
    }

    method Passthrough()
      modifies this
      ensures stages == old(stages) + [Stage(Sequential, None, Identity)]
    {
      Then(Identity);
    }

    method AssignKey(key: string, c: Callable)
      modifies this
      ensures stages == old(stages) + [Stage(Assign, Some(key), c)]
    {
      stages := stages + [Stage(Assign, Some(key), c)];
    }

    method FanOutWith(branches: seq<(string, Callable)>)
      modifies this
      ensures stages == old(stages) + [Stage(Sequential, None, FanOut(Collected(branches)))]
    {
      var sorted := Collect(branches);
      stages := stages + [Stage(Sequential, None, FanOut(sorted))];
    }
  }

  function Less(a: string, b: string): bool {
    if b == "" then false
    else if a == "" then true
    else a[0] < b[0] || (a[0] == b[0] && Less(a[1..], b[1..]))
  }

  /** Insertion into the ordered branch map; an existing key is overwritten. */
  function Insert(s: seq<Branch>, b: Branch): seq<Branch> {
    if s == [] then [b]
    else if s[0].key == b.key then [b] + s[1..]
    else if Less(b.key, s[0].key) then [b] + s
    else [s[0]] + Insert(s[1..], b)
  }

  function Collected(branches: seq<(string, Callable)>): seq<Branch> {
    if branches == [] then [] else Insert(Collected(Init(branches)), Branch(Last(branches).0, Last(branches).1))
  }

  method Collect(branches: seq<(string, Callable)>) returns (sorted: seq<Branch>)
    ensures sorted == Collected(branches)
  {
    sorted := [];
    for i := 0 to |branches|
      invariant sorted == Collected(branches[..i])
    {
      assert Init(branches[..i + 1]) == branches[..i];
      sorted := Insert(sorted, Branch(branches[i].0, branches[i].1));
    }
    assert branches[..|branches|] == branches;
  }

  lemma {:induction false} LessTotal(a: string, b: string)
    ensures a != b ==> Less(a, b) != Less(b, a)
    ensures !Less(a, a)
  {
    if a != "" {
      LessTotal(a[1..], a[1..]);
      if b != "" && a[0] == b[0] {
        LessTotal(a[1..], b[1..]);
        assert a == [a[0]] + a[1..] && b == [b[0]] + b[1..];
      }
    }
  }

  lemma {:induction false} LessTransitive(a: string, b: string, c: string)
    requires Less(a, b) && Less(b, c)
    ensures Less(a, c)
  {
    if a != "" && a[0] == b[0] == c[0] {
      LessTransitive(a[1..], b[1..], c[1..]);
    }
  }

  predicate Ascending(s: seq<Branch>) {
    forall i, j :: 0 <= i < j < |s| ==> Less(s[i].key, s[j].key)
  }

  /** The callable bound to a key. */
  function Lookup(s: seq<Branch>, key: string): Option<Callable> {
    if s == [] then None else if s[0].key == key then Some(s[0].callable) else Lookup(s[1..], key)
  }

  lemma {:induction false} InsertAscends(s: seq<Branch>, b: Branch)
    requires Ascending(s)
    ensures Ascending(Insert(s, b))
    ensures forall x <- Insert(s, b) :: x == b || x in s
    ensures forall key :: Lookup(Insert(s, b), key) == if key == b.key then Some(b.callable) else Lookup(s, key)
  {
    if s != [] {
      assert s == [s[0]] + s[1..];
      LessTotal(s[0].key, b.key);
      if s[0].key == b.key {
        assert ([b] + s[1..])[1..] == s[1..];
      } else if Less(b.key, s[0].key) {
        assert ([b] + s)[1..] == s;
        forall x | x in s
          ensures Less(b.key, x.key)
        {
          if x != s[0] {
            LessTransitive(b.key, s[0].key, x.key);
          }
        }
      } else {
        InsertAscends(s[1..], b);
        assert ([s[0]] + Insert(s[1..], b))[1..] == Insert(s[1..], b);
        forall x | x in Insert(s[1..], b)
          ensures Less(s[0].key, x.key)
        {
        }
      }
    }
  }

  /** A fan-out's branches come out in strictly ascending key order, and of several branches with
      one key the last given wins. */
  lemma {:induction false} CollectedIsOrdered(branches: seq<(string, Callable)>, i: nat)
    requires i < |branches| && forall j :: i < j < |branches| ==> branches[j].0 != branches[i].0
    ensures Ascending(Collected(branches))
    ensures Lookup(Collected(branches), branches[i].0) == Some(branches[i].1)
    decreases |branches|
  {
    AlwaysAscending(Init(branches));
    InsertAscends(Collected(Init(branches)), Branch(Last(branches).0, Last(branches).1));
    if i < |branches| - 1 {
      CollectedIsOrdered(Init(branches), i);
    }
  }

  /** And nothing else comes out. */
  lemma {:induction false} CollectedWereGiven(branches: seq<(string, Callable)>, b: Branch)
    requires b in Collected(branches)
    ensures (b.key, b.callable) in branches
    decreases |branches|
  {
    EndsOf(branches);
    AlwaysAscending(Init(branches));
    InsertAscends(Collected(Init(branches)), Branch(Last(branches).0, Last(branches).1));
    if b in Collected(Init(branches)) {
      CollectedWereGiven(Init(branches), b);
    }
  }

  lemma {:induction false} AlwaysAscending(branches: seq<(string, Callable)>)
    ensures Ascending(Collected(branches))
    decreases |branches|
  {
    if branches != [] {
      AlwaysAscending(Init(branches));
      InsertAscends(Collected(Init(branches)), Branch(Last(branches).0, Last(branches).1));
    }
  }

  // ----- Flattening -------------------------------------------------------------------

  lemma {:induction false} RunAppend<W>(env: Env<W>, a: seq<Stage>, b: seq<Stage>, v: Value, w: W)
    ensures RunStages(env, a + b, v, w)
      == var (r, w') := RunStages(env, a, v, w); if r.Err? then (r, w') else RunStages(env, b, r.value, w')
    decreases |a|
  {
    if a == [] {
      assert a + b == b;
    } else {
      assert (a + b)[0] == a[0] && (a + b)[1..] == a[1..] + b;
      var (r, w') := RunStage(env, a[0], v, w);
      if r.Ok? {
        RunAppend(env, a[1..], b, r.value, w');
      }
    }
  }

  lemma OneStage<W>(env: Env<W>, stage: Stage, v: Value, w: W)
    ensures RunStages(env, [stage], v, w) == RunStage(env, stage, v, w)
  {
    assert [stage][1..] == [];
  }

  /** What `then` means: the pipeline so far runs, and the callable is called on its result; an
      earlier error is the result, and the callable is not called. */
  lemma ThenMeans<W>(env: Env<W>, stages: seq<Stage>, c: Callable, v: Value, w: W)
    ensures RunStages(env, stages + [Stage(Sequential, None, c)], v, w)
      == var (r, w') := RunStages(env, stages, v, w); if r.Err? then (r, w') else Call(env, c, r.value, w')
  {
    var stage := Stage(Sequential, None, c);
    RunAppend(env, stages, [stage], v, w);
    var (r, w') := RunStages(env, stages, v, w);
    if r.Ok? {
      OneStage(env, stage, r.value, w');
    }
  }

  /** A pass-through changes nothing. */
  lemma PassthroughMeans<W>(env: Env<W>, stages: seq<Stage>, v: Value, w: W)
    ensures RunStages(env, stages + [Stage(Sequential, None, Identity)], v, w) == RunStages(env, stages, v, w)
  {
    ThenMeans(env, stages, Identity, v, w);
  }

  /** The object an assign stage makes of `current` and the value derived from it: the derived value
      under the key, and everything else as it was; what is not an object is kept under `input`. */
  ghost predicate Extends(x: Value, current: Value, key: string, derived: Value) {
    && x.Obj? && key in x.fields && x.fields[key] == derived
    && (forall k :: k != key ==>
          (k in x.fields <==> if current.Obj? then k in current.fields else k == "input"))
    && (forall k :: k != key && k in x.fields ==>
          x.fields[k] == if current.Obj? && k in current.fields then current.fields[k] else current)
  }

  /** What `assign` means: the callable is called on the result so far, and its value extends that
      result under the key; an error of either is the result. */
  lemma AssignMeans<W>(env: Env<W>, stages: seq<Stage>, key: string, c: Callable, v: Value, w: W)
    ensures var (r, w1) := RunStages(env, stages, v, w);
      var (x, w2) := RunStages(env, stages + [Stage(Assign, Some(key), c)], v, w);
      if r.Err? then (x, w2) == (r, w1)
      else
        var (derived, w3) := Call(env, c, r.value, w1);
        w2 == w3 && if derived.Err? then x == derived else x.Ok? && Extends(x.value, r.value, key, derived.value)
  {
    var stage := Stage(Assign, Some(key), c);
    RunAppend(env, stages, [stage], v, w);
    var (r, w') := RunStages(env, stages, v, w);
    if r.Ok? {
      OneStage(env, stage, r.value, w');
    }
  }

  /** A built pipeline nested as a stage means the same as its stages spliced inline: the same
      calls on the same worlds in the same order, and the same result or error. */
  lemma NestingIsSplicing<W>(env: Env<W>, a: seq<Stage>, inner: seq<Stage>, b: seq<Stage>, v: Value, w: W)
    ensures RunStages(env, a + [Stage(Sequential, None, Built(inner))] + b, v, w) == RunStages(env, a + inner + b, v, w)
  {
    var nested := Stage(Sequential, None, Built(inner));
    RunAppend(env, a + [nested], b, v, w);
    RunAppend(env, a, [nested], v, w);
    RunAppend(env, a + inner, b, v, w);
    RunAppend(env, a, inner, v, w);
    var (r, w') := RunStages(env, a, v, w);
    if r.Ok? {
      OneStage(env, nested, r.value, w');
    }
  }

  /** Splices nested pipelines and drops pass-through stages, everywhere. */
  function Flatten(c: Callable): Callable
    decreases c, 0
  {
    match c
    case Built(stages) => Built(FlattenStages(stages))
    case FanOut(branches) => FanOut(FlattenBranches(branches))
    case _ => c
  }

  function FlattenStage(stage: Stage): seq<Stage>
    decreases stage, 0
  {
    var c := Flatten(stage.callable);
    if stage.kind.Sequential? && c.Built? then c.stages
    else if stage.kind.Sequential? && c.Identity? then []
    else [Stage(stage.kind, stage.key, c)]
  }

  function FlattenStages(stages: seq<Stage>): seq<Stage>
    decreases stages, 0
  {
    if stages == [] then [] else FlattenStage(stages[0]) + FlattenStages(stages[1..])
  }

  function FlattenBranches(branches: seq<Branch>): (flat: seq<Branch>)
    ensures |flat| == |branches|
    decreases branches, 0
  {
    if branches == [] then []
    else [Branch(branches[0].key, Flatten(branches[0].callable))] + FlattenBranches(branches[1..])
  }

  lemma {:induction false} BranchFlattened(branches: seq<Branch>, i: nat)
    requires i < |branches|
    ensures FlattenBranches(branches)[i] == Branch(branches[i].key, Flatten(branches[i].callable))
  {
    if i > 0 {
      BranchFlattened(branches[1..], i - 1);
    }
  }

  /** Flattening preserves meaning, for every callable, input, world and scheduler. */
  lemma {:induction false} FlattenPreserves<W>(env: Env<W>, c: Callable, v: Value, w: W)
    ensures Call(env, Flatten(c), v, w) == Call(env, c, v, w)
    decreases c, 0
  {
    match c
    case Built(stages) => FlattenStagesPreserves(env, stages, v, w);
    case FanOut(branches) =>
      var order := env.order(|branches|, w);
      FlattenTasksPreserves(env, branches, order, v, w);
      var slots := RunTasks(env, branches, order, v, w).0;
      AwaitIgnoresCallables(branches, FlattenBranches(branches), slots, 0, map[]);
    case _ =>
  }

  lemma {:induction false} FlattenStagesPreserves<W>(env: Env<W>, stages: seq<Stage>, v: Value, w: W)
    ensures RunStages(env, FlattenStages(stages), v, w) == RunStages(env, stages, v, w)
    decreases stages, 0
  {
    if stages != [] {
      FlattenStagePreserves(env, stages[0], v, w);
      RunAppend(env, FlattenStage(stages[0]), FlattenStages(stages[1..]), v, w);
      var (r, w') := RunStage(env, stages[0], v, w);
      if r.Ok? {
        FlattenStagesPreserves(env, stages[1..], r.value, w');
      }
    }
  }

  lemma {:induction false} FlattenStagePreserves<W>(env: Env<W>, stage: Stage, v: Value, w: W)
    ensures RunStages(env, FlattenStage(stage), v, w) == RunStage(env, stage, v, w)
    decreases stage, 0
  {
    FlattenPreserves(env, stage.callable, v, w);
    OneStage(env, Stage(stage.kind, stage.key, Flatten(stage.callable)), v, w);
  }

  lemma {:induction false} FlattenTasksPreserves<W>(env: Env<W>, branches: seq<Branch>, order: seq<nat>, v: Value, w: W)
    ensures RunTasks(env, FlattenBranches(branches), order, v, w) == RunTasks(env, branches, order, v, w)
    decreases branches, |order|
  {
    if order != [] {
      FlattenTasksPreserves(env, branches, Init(order), v, w);
      var i, w' := Last(order), RunTasks(env, branches, Init(order), v, w).1;
      if i < |branches| {
        BranchFlattened(branches, i);
        FlattenPreserves(env, branches[i].callable, v, w');
      }
    }
  }

  lemma {:induction false} AwaitIgnoresCallables(a: seq<Branch>, b: seq<Branch>, slots: map<nat, Result<Value, string>>,
                                                 i: nat, out: map<string, Value>)
    requires b == FlattenBranches(a) && i <= |a|
    ensures Await(a, slots, i, out) == Await(b, slots, i, out)
    decreases |a| - i
  {
    if i < |a| {
      BranchFlattened(a, i);
      if i in slots && slots[i].Ok? {
        AwaitIgnoresCallables(a, b, slots, i + 1, out[a[i].key := slots[i].value]);
      }
    }
  }

  /** Inside the callable, at any depth, no sequential stage is a pipeline or a pass-through. */
  predicate Flat(c: Callable)
    decreases c, 0
  {
    match c
    case Built(stages) => FlatStages(stages)
    case FanOut(branches) => FlatBranches(branches)
    case _ => true
  }

  predicate FlatStage(stage: Stage)
    decreases stage, 0
  {
    && (stage.kind.Sequential? ==> !stage.callable.Built? && !stage.callable.Identity?)
    && Flat(stage.callable)
  }

  predicate FlatStages(stages: seq<Stage>)
    decreases stages, 0
  {
    stages == [] || (FlatStage(stages[0]) && FlatStages(stages[1..]))
  }

  predicate FlatBranches(branches: seq<Branch>)
    decreases branches, 0
  {
    branches == [] || (Flat(branches[0].callable) && FlatBranches(branches[1..]))
  }

  lemma {:induction false} FlatAppend(a: seq<Stage>, b: seq<Stage>)
    requires FlatStages(a) && FlatStages(b)
    ensures FlatStages(a + b)
    decreases |a|
  {
    if a == [] {
      assert a + b == b;
    } else {
      FlatAppend(a[1..], b);
      assert (a + b)[1..] == a[1..] + b;
    }
  }

  /** Flattening leaves nothing to flatten, at any level: in nested pipelines, in the branches of
      fan-outs and in the callables of assign stages. */
  lemma {:induction false} FlattenIsFlat(c: Callable)
    ensures Flat(Flatten(c))
    decreases c, 0
  {
    match c
    case Built(stages) => FlattenStagesFlat(stages);
    case FanOut(branches) => FlattenBranchesFlat(branches);
    case _ =>
  }

  lemma {:induction false} FlattenStageFlat(stage: Stage)
    ensures FlatStages(FlattenStage(stage))
    decreases stage, 0
  {
    FlattenIsFlat(stage.callable);
    var s := Stage(stage.kind, stage.key, Flatten(stage.callable));
    assert [s][1..] == [];
  }

  lemma {:induction false} FlattenStagesFlat(stages: seq<Stage>)
    ensures FlatStages(FlattenStages(stages))
    decreases stages, 0
  {
    if stages != [] {
      FlattenStageFlat(stages[0]);
      FlattenStagesFlat(stages[1..]);
      FlatAppend(FlattenStage(stages[0]), FlattenStages(stages[1..]));
    }
  }

  lemma {:induction false} FlattenBranchesFlat(branches: seq<Branch>)
    ensures FlatBranches(FlattenBranches(branches))
    decreases branches, 0
  {
    if branches != [] {
      FlattenIsFlat(branches[0].callable);
      FlattenBranchesFlat(branches[1..]);
      assert FlattenBranches(branches)[1..] == FlattenBranches(branches[1..]);
    }
  }

  // ----- Fan-out and completion order ----------------------------------------------------

  /** The callable's result does not depend on the world and it leaves the world alone. */
  ghost predicate Pure<W(!new)>(env: Env<W>, c: Callable, v: Value, w: W) {
    Call(env, c, v, w) == (Call(env, c, v, w).0, w)
  }

  predicate Completes(order: seq<nat>, n: nat) {
    forall i :: 0 <= i < n ==> i in order
  }

  lemma {:induction false} PureTasks<W(!new)>(env: Env<W>, branches: seq<Branch>, order: seq<nat>, v: Value, w: W)
    requires forall b <- branches :: Pure(env, b.callable, v, w)
    ensures var (slots, w') := RunTasks(env, branches, order, v, w);
      && w' == w
      && forall i: nat :: i < |branches| && i in order ==> i in slots && slots[i] == Call(env, branches[i].callable, v, w).0
    decreases |order|
  {
    if order != [] {
      PureTasks(env, branches, Init(order), v, w);
      assert order == Init(order) + [Last(order)];
      if Last(order) < |branches| {
        assert branches[Last(order)] in branches;
      }
    }
  }

  /** What a fan-out of pure branches yields, with no scheduler in it. */
  function Direct<W>(env: Env<W>, branches: seq<Branch>, v: Value, w: W, i: nat, out: map<string, Value>): Result<Value, string>
    requires i <= |branches|
    decreases |branches| - i
  {
    if i == |branches| then Ok(Obj(out))
    else
      match Call(env, branches[i].callable, v, w).0
      case Err(e) => Err(e)
      case Ok(x) => Direct(env, branches, v, w, i + 1, out[branches[i].key := x])
  }

  lemma {:induction false} AwaitIsDirect<W>(env: Env<W>, branches: seq<Branch>, slots: map<nat, Result<Value, string>>, v: Value, w: W,
                                            i: nat, out: map<string, Value>)
    requires i <= |branches|
    requires forall k: nat :: k < |branches| ==> k in slots && slots[k] == Call(env, branches[k].callable, v, w).0
    ensures Await(branches, slots, i, out) == Direct(env, branches, v, w, i, out)
    decreases |branches| - i
  {
    if i < |branches| && slots[i].Ok? {
      AwaitIsDirect(env, branches, slots, v, w, i + 1, out[branches[i].key := slots[i].value]);
    }
  }

  /** For branches that are pure on the input, the output and the reported error of a fan-out do
      not depend on the order in which the tasks complete: the error is the first in key order. */
  lemma FanOutIgnoresOrder<W(!new)>(env: Env<W>, branches: seq<Branch>, v: Value, w: W)
    requires forall b <- branches :: Pure(env, b.callable, v, w)
    requires Completes(env.order(|branches|, w), |branches|)
    ensures Call(env, FanOut(branches), v, w) == (Direct(env, branches, v, w, 0, map[]), w)
  {
    var order := env.order(|branches|, w);
    PureTasks(env, branches, order, v, w);
    AwaitIsDirect(env, branches, RunTasks(env, branches, order, v, w).0, v, w, 0, map[]);
  }

  /** The object holds the values of the branches from `i` on under their keys, and otherwise what
      `out` holds. */
  ghost predicate HoldsAll<W>(env: Env<W>, branches: seq<Branch>, v: Value, w: W, i: nat, out: map<string, Value>, x: Value)
    requires i <= |branches|
  {
    && x.Obj?
    && (forall k :: i <= k < |branches| ==>
          Call(env, branches[k].callable, v, w).0.Ok? && branches[k].key in x.fields
          && x.fields[branches[k].key] == Call(env, branches[k].callable, v, w).0.value)
    && (forall key :: key in x.fields ==> key in out || exists k :: i <= k < |branches| && branches[k].key == key)
    && (forall key :: key in out && (forall k :: i <= k < |branches| ==> branches[k].key != key)
          ==> key in x.fields && x.fields[key] == out[key])
  }

  lemma {:induction false} DirectHolds<W>(env: Env<W>, branches: seq<Branch>, v: Value, w: W, i: nat, out: map<string, Value>)
    requires i <= |branches| && Ascending(branches) && Direct(env, branches, v, w, i, out).Ok?
    ensures HoldsAll(env, branches, v, w, i, out, Direct(env, branches, v, w, i, out).value)
    decreases |branches| - i
  {
    if i < |branches| {
      var out' := out[branches[i].key := Call(env, branches[i].callable, v, w).0.value];
      DirectHolds(env, branches, v, w, i + 1, out');
      forall k | i < k < |branches|
        ensures branches[k].key != branches[i].key
      {
        LessTotal(branches[i].key, branches[i].key);
      }
    }
  }

  /** Branch `k` is the first that fails, with the given error. */
  predicate FirstFailure<W>(env: Env<W>, branches: seq<Branch>, v: Value, w: W, k: nat, e: string) {
    && k < |branches| && Call(env, branches[k].callable, v, w).0 == Err(e)
    && forall j :: 0 <= j < k ==> Call(env, branches[j].callable, v, w).0.Ok?
  }

  lemma {:induction false} DirectFails<W>(env: Env<W>, branches: seq<Branch>, v: Value, w: W, i: nat, out: map<string, Value>)
    returns (k: nat)
    requires i <= |branches| && Direct(env, branches, v, w, i, out).Err?
    requires forall j :: 0 <= j < i ==> Call(env, branches[j].callable, v, w).0.Ok?
    ensures FirstFailure(env, branches, v, w, k, Direct(env, branches, v, w, i, out).error)
    decreases |branches| - i
  {
    var r := Call(env, branches[i].callable, v, w).0;
    k := i;
    if r.Ok? {
      k := DirectFails(env, branches, v, w, i + 1, out[branches[i].key := r.value]);
    }
  }

  /** The direct result: an object that holds exactly every branch's value under its key, or the
      error of the first failing branch in key order. */
  lemma DirectMeans<W>(env: Env<W>, branches: seq<Branch>, v: Value, w: W)
    requires Ascending(branches)
    ensures var d := Direct(env, branches, v, w, 0, map[]);
      && (d.Ok? ==> HoldsAll(env, branches, v, w, 0, map[], d.value))
      && (d.Err? ==> exists k :: FirstFailure(env, branches, v, w, k, d.error))
  {
    if Direct(env, branches, v, w, 0, map[]).Ok? {
      DirectHolds(env, branches, v, w, 0, map[]);
    } else {
      var k := DirectFails(env, branches, v, w, 0, map[]);
    }
  }

  // ----- The calls that are made -------------------------------------------------------------

  function Prims(ids: seq<nat>): seq<Stage> {
    seq(|ids|, i requires 0 <= i < |ids| => Stage(Sequential, None, Prim(ids[i])))
  }

  /** Each primitive is called once, in order, on what the one before made of value and world. */
  ghost predicate Chain<W>(env: Env<W>, ids: seq<nat>, values: seq<Value>, worlds: seq<W>) {
    && |values| == |worlds| == |ids| + 1
    && forall k :: 0 <= k < |ids| ==> env.prim(ids[k], values[k], worlds[k]) == (Ok(values[k + 1]), worlds[k + 1])
  }

  /** A pipeline of primitives calls them one after the other, each on the result of the one before, up to
      the first that fails; the pipeline then ends as that call did. By flattening this says which calls
      any nesting of pipelines makes. */
  lemma {:induction false} PrimsInOrder<W>(env: Env<W>, ids: seq<nat>, v: Value, w: W)
    returns (values: seq<Value>, worlds: seq<W>, n: nat)
    ensures n <= |ids| && Chain(env, ids[..n], values, worlds) && values[0] == v && worlds[0] == w
    ensures var (r, w') := Call(env, Built(Prims(ids)), v, w);
      if n == |ids| then (r, w') == (Ok(values[n]), worlds[n])
      else r.Err? && env.prim(ids[n], values[n], worlds[n]) == (r, w')
    decreases |ids|
  {
    values, worlds, n := [v], [w], 0;
    if ids != [] {
      var stages := Prims(ids);
      assert stages[1..] == Prims(ids[1..]) && stages[0] == Stage(Sequential, None, Prim(ids[0]));
      var (r, w') := env.prim(ids[0], v, w);
      assert RunStage(env, stages[0], v, w) == (r, w');
      if r.Ok? {
        var vs, ws, m := PrimsInOrder(env, ids[1..], r.value, w');
        values, worlds, n := [v] + vs, [w] + ws, m + 1;
        assert ids[1..][..m] == ids[..n][1..];
        forall k | 0 <= k < n
          ensures env.prim(ids[k], values[k], worlds[k]) == (Ok(values[k + 1]), worlds[k + 1])
        {
          if k > 0 {
            assert ids[1..][..m][k - 1] == ids[k];
          }
        }
        assert Call(env, Built(Prims(ids[1..])), r.value, w') == RunStages(env, stages[1..], r.value, w');
      }
    }
  }

  /** What awaiting the results of the branches in key order gives: an object with each value under its
      key and nothing else, or the first error. */
  ghost predicate Awaited(branches: seq<Branch>, results: seq<Result<Value, string>>, r: Result<Value, string>) {
    && |results| == |branches|
    && match r
       case Ok(x) =>
         && x.Obj? && (forall k :: 0 <= k < |branches| ==>
               results[k].Ok? && branches[k].key in x.fields && x.fields[branches[k].key] == results[k].value)
         && forall key :: key in x.fields ==> exists k :: 0 <= k < |branches| && branches[k].key == key
       case Err(e) =>
         exists k :: 0 <= k < |branches| && results[k] == Err(e) && forall j :: 0 <= j < k ==> results[j].Ok?
  }

  /** The branches before `i` have been awaited, and all succeeded. */
  ghost predicate AwaitedTo(branches: seq<Branch>, results: seq<Result<Value, string>>, i: nat, out: map<string, Value>) {
    && i <= |branches| == |results|
    && (forall k :: 0 <= k < i ==> results[k].Ok? && branches[k].key in out && out[branches[k].key] == results[k].value)
    && forall key :: key in out ==> exists k :: 0 <= k < i && branches[k].key == key
  }

  lemma AwaitOneMore(branches: seq<Branch>, results: seq<Result<Value, string>>, i: nat, out: map<string, Value>)
    requires Ascending(branches) && AwaitedTo(branches, results, i, out) && i < |branches| && results[i].Ok?
    ensures AwaitedTo(branches, results, i + 1, out[branches[i].key := results[i].value])
  {
    var out' := out[branches[i].key := results[i].value];
    forall k | 0 <= k < i
      ensures branches[k].key != branches[i].key
    {
      LessTotal(branches[i].key, branches[i].key);
    }
    forall key | key in out'
      ensures exists k :: 0 <= k < i + 1 && branches[k].key == key
    {
      if key in out {
        var k :| 0 <= k < i && branches[k].key == key;
      } else {
        assert branches[i].key == key;
      }
    }
  }

  lemma {:induction false} AwaitMeans(branches: seq<Branch>, slots: map<nat, Result<Value, string>>,
                                      results: seq<Result<Value, string>>, i: nat, out: map<string, Value>)
    requires Ascending(branches) && AwaitedTo(branches, results, i, out)
    requires forall k: nat :: k < |branches| ==> k in slots && slots[k] == results[k]
    ensures Awaited(branches, results, Await(branches, slots, i, out))
    decreases |branches| - i
  {
    if i < |branches| && results[i].Ok? {
      AwaitOneMore(branches, results, i, out);
      AwaitMeans(branches, slots, results, i + 1, out[branches[i].key := results[i].value]);
    }
  }

  /** The branch, called on the input in world `w`, gives the result and leaves world `w'`. */
  ghost predicate TaskGives<W>(env: Env<W>, branches: seq<Branch>, i: nat, v: Value, w: W, r: Result<Value, string>, w': W) {
    i < |branches| && Call(env, branches[i].callable, v, w) == (r, w')
  }

  /** Each task runs once, in the scheduler's order, on the fan-out's input and the world that the task
      before left. */
  ghost predicate RunsAll<W>(env: Env<W>, branches: seq<Branch>, order: seq<nat>, v: Value, worlds: seq<W>,
                             results: seq<Result<Value, string>>) {
    && |worlds| == |order| + 1 && |results| == |branches|
    && forall k :: 0 <= k < |order| ==>
         order[k] < |branches| && TaskGives(env, branches, order[k], v, worlds[k], results[order[k]], worlds[k + 1])
  }

  ghost predicate Threads<W>(env: Env<W>, branches: seq<Branch>, order: seq<nat>, v: Value, worlds: seq<W>,
                             slots: map<nat, Result<Value, string>>) {
    && |worlds| == |order| + 1 && (forall i :: i in slots <==> i in order)
    && forall k :: 0 <= k < |order| ==>
         order[k] in slots && TaskGives(env, branches, order[k], v, worlds[k], slots[order[k]], worlds[k + 1])
  }

  lemma ThreadsSnoc<W>(env: Env<W>, branches: seq<Branch>, order: seq<nat>, v: Value, worlds: seq<W>,
                       slots: map<nat, Result<Value, string>>, i: nat, r: Result<Value, string>, w: W)
    requires Threads(env, branches, order, v, worlds, slots) && i !in order
    requires TaskGives(env, branches, i, v, Last(worlds), r, w)
    ensures Threads(env, branches, order + [i], v, worlds + [w], slots[i := r])
  {
    forall k | 0 <= k < |order|
      ensures order[k] != i && order[k] in order
    {
    }
  }

  lemma {:induction false} TasksThread<W>(env: Env<W>, branches: seq<Branch>, order: seq<nat>, v: Value, w: W)
    returns (worlds: seq<W>)
    requires NoDup(order) && forall i <- order :: i < |branches|
    ensures Threads(env, branches, order, v, worlds, RunTasks(env, branches, order, v, w).0)
    ensures worlds[0] == w && Last(worlds) == RunTasks(env, branches, order, v, w).1
    decreases |order|
  {
    worlds := [w];
    if order != [] {
      var i := Last(order);
      EndsOf(order);
      assert i !in Init(order);
      worlds := TasksThread(env, branches, Init(order), v, w);
      var (slots, w') := RunTasks(env, branches, Init(order), v, w);
      var (r, w'') := Call(env, branches[i].callable, v, w');
      ThreadsSnoc(env, branches, Init(order), v, worlds, slots, i, r, w'');
      worlds := worlds + [w''];
    }
  }

  /** A fan-out with effects: whatever the scheduler's order, every branch is called exactly once on the
      fan-out's input, one after the other on the shared world; the results are awaited in key order. */
  lemma FanOutRunsAll<W>(env: Env<W>, branches: seq<Branch>, v: Value, w: W)
    returns (worlds: seq<W>, results: seq<Result<Value, string>>)
    requires Ascending(branches)
    requires var order := env.order(|branches|, w);
      NoDup(order) && Completes(order, |branches|) && forall i <- order :: i < |branches|
    ensures RunsAll(env, branches, env.order(|branches|, w), v, worlds, results)
    ensures var (r, w') := Call(env, FanOut(branches), v, w);
      worlds[0] == w && w' == worlds[|worlds| - 1] && Awaited(branches, results, r)
  {
    var order := env.order(|branches|, w);
    var slots := RunTasks(env, branches, order, v, w).0;
    worlds := TasksThread(env, branches, order, v, w);
    assert forall i :: 0 <= i < |branches| ==> i in order;
    results := seq(|branches|, i requires 0 <= i < |branches| => slots[i]);
    assert RunsAll(env, branches, order, v, worlds, results) by {
      assert forall k :: 0 <= k < |order| ==> order[k] in order;
    }
    AwaitMeans(branches, slots, results, 0, map[]);
  }
}
