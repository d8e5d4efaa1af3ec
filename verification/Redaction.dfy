/** The redaction middleware: patterns replaced one after the other in every text message. */
module Redaction {
  import opened Prelude

  datatype Content = Text(text: string) | Other(tag: nat)

  // ----- Replacement --------------------------------------------------------

  /** `str::replace`: leftmost non-overlapping matches, left to right. The empty pattern matches
      between any two characters and at both ends. */
  function Replace(t: string, p: string, r: string): string
    decreases |t|
  {
    if p == "" then (if t == "" then r else r + [t[0]] + Replace(t[1..], p, r))
    else if t == "" then ""
    else if p <= t then r + Replace(t[|p|..], p, r)
    else [t[0]] + Replace(t[1..], p, r)
  }

  function RedactText(t: string, patterns: seq<string>, r: string): string {
    if patterns == [] then t else Replace(RedactText(t, Init(patterns), r), Last(patterns), r)
  }

  /** The text as the patterns are replaced one after the other, first pattern first: `stages[k]` is what
      the first `k` patterns make of it. */
  predicate InTurn(stages: seq<string>, patterns: seq<string>, r: string) {
    && |stages| == |patterns| + 1
    && forall k :: 0 <= k < |patterns| ==> stages[k + 1] == Replace(stages[k], patterns[k], r)
  }

  class RedactionMiddleware {
    const patterns: seq<string>
    const replacement: string

    constructor (patterns: seq<string>, replacement: string)
      ensures this.patterns == patterns && this.replacement == replacement
    {
      this.patterns, this.replacement := patterns, replacement;
    }

    /** Rewrites the messages of a batch in place: every message keeps its kind, and what is not text
        stays as it is; every text is what the patterns, in turn, make of it. If each pattern is
        non-empty and compatible with the replacement, none occurs in any text that is left. */
    method BeforeModelCall(messages: array<Content>)
      modifies messages
      ensures forall i :: 0 <= i < messages.Length ==>
        if old(messages[i]).Text?
        then messages[i].Text?
             && exists stages ::
                  InTurn(stages, patterns, replacement)
                  && stages[0] == old(messages[i]).text && stages[|patterns|] == messages[i].text
        else messages[i] == old(messages[i])
      ensures (forall p <- patterns :: p != "" && Compatible(p, replacement)) ==>
        forall i, p :: 0 <= i < messages.Length && messages[i].Text? && p in patterns ==> !Occurs(p, messages[i].text)
    {
      for i := 0 to messages.Length
        invariant forall k :: 0 <= k < i ==> Rewritten(old(messages[k]), messages[k], patterns, replacement)
        invariant forall k :: i <= k < messages.Length ==> messages[k] == old(messages[k])
      {
        if messages[i].Text? {
          var t := messages[i].text;
          for k := 0 to |patterns|
            invariant t == RedactText(messages[i].text, patterns[..k], replacement)
          {
            t := Replace(t, patterns[k], replacement);
            assert Init(patterns[..k + 1]) == patterns[..k];
          }
          assert patterns[..|patterns|] == patterns;
          messages[i] := Text(t);
        }
      }
      forall i | 0 <= i < messages.Length
        ensures old(messages[i]).Text? ==>
          exists stages ::
            InTurn(stages, patterns, replacement)
            && stages[0] == old(messages[i]).text && stages[|patterns|] == messages[i].text
      {
        if old(messages[i]).Text? {
          var stages := Stages(old(messages[i]).text, patterns, replacement);
        }
      }
      if forall p <- patterns :: p != "" && Compatible(p, replacement) {
        forall i | 0 <= i < messages.Length && messages[i].Text?
          ensures forall p <- patterns :: !Occurs(p, messages[i].text)
        {
          RedactionIsComplete(old(messages[i]).text, patterns, replacement);
        }
      }
    }
  }

  predicate Rewritten(before: Content, after: Content, patterns: seq<string>, r: string) {
    if before.Text? then after == Text(RedactText(before.text, patterns, r)) else after == before
  }

  lemma {:induction false} Stages(t: string, patterns: seq<string>, r: string) returns (stages: seq<string>)
    ensures InTurn(stages, patterns, r) && stages[0] == t && stages[|patterns|] == RedactText(t, patterns, r)
    decreases |patterns|
  {
    stages := [t];
    if patterns != [] {
      var before := Stages(t, Init(patterns), r);
      stages := before + [RedactText(t, patterns, r)];
    }
  }

  lemma {:induction false} StagesDetermine(t: string, patterns: seq<string>, r: string, stages: seq<string>)
    requires InTurn(stages, patterns, r) && stages[0] == t
    ensures stages[|patterns|] == RedactText(t, patterns, r)
    decreases |patterns|
  {
    if patterns != [] {
      StagesDetermine(t, Init(patterns), r, Init(stages));
    }
  }

  // ----- What one replacement is ------------------------------------------------------

  /** The gaps put together with a separator between any two. */
  function Joined(gaps: seq<string>, sep: string): string {
    if gaps == [] then "" else if |gaps| == 1 then gaps[0] else gaps[0] + sep + Joined(gaps[1..], sep)
  }

  /** The text is cut at the matches that a search from the left finds: in each gap followed by the
      pattern, the pattern occurs at the end only, and in the last gap not at all. */
  ghost predicate CutAtMatches(gaps: seq<string>, p: string) {
    && gaps != []
    && (forall k, i :: 0 <= k < |gaps| - 1 && OccursAt(p, gaps[k] + p, i) ==> i == |gaps[k]|)
    && !Occurs(p, gaps[|gaps| - 1])
  }

  lemma OccursAfterFirst(p: string, c: char, rest: string, i: int)
    ensures i > 0 && OccursAt(p, [c] + rest, i) ==> OccursAt(p, rest, i - 1)
  {
    if i > 0 && OccursAt(p, [c] + rest, i) {
      assert rest[i - 1..i - 1 + |p|] == ([c] + rest)[i..i + |p|];
    }
  }

  lemma NotAtFront(p: string, u: string, v: string)
    requires u <= v && !(p <= v)
    ensures !OccursAt(p, u, 0)
  {
  }

  lemma FrontCut(c: char, gap: string, p: string, t: string)
    requires p != "" && !(p <= [c] + t) && (forall i :: OccursAt(p, gap + p, i) ==> i == |gap|)
    requires gap + p <= t
    ensures forall i :: OccursAt(p, [c] + gap + p, i) ==> i == |gap| + 1
  {
    assert [c] + gap + p == [c] + (gap + p);
    NotAtFront(p, [c] + (gap + p), [c] + t);
    forall i
      ensures OccursAt(p, [c] + (gap + p), i) ==> i == |gap| + 1
    {
      OccursAfterFirst(p, c, gap + p, i);
    }
  }

  lemma FrontClean(c: char, gap: string, p: string)
    requires p != "" && !(p <= [c] + gap) && !Occurs(p, gap)
    ensures !Occurs(p, [c] + gap)
  {
    NotAtFront(p, [c] + gap, [c] + gap);
    forall i
      ensures !OccursAt(p, [c] + gap, i)
    {
      OccursAfterFirst(p, c, gap, i);
    }
  }

  lemma JoinedFront(gaps: seq<string>, a: string, sep: string)
    requires gaps != []
    ensures Joined([a + gaps[0]] + gaps[1..], sep) == a + Joined(gaps, sep)
  {
    var longer := [a + gaps[0]] + gaps[1..];
    assert longer[1..] == gaps[1..];
    if |gaps| > 1 {
      Assoc(a, gaps[0], sep);
      Assoc(a, gaps[0] + sep, Joined(gaps[1..], sep));
    }
  }

  lemma CutWithMatch(rest: seq<string>, p: string)
    requires p != "" && CutAtMatches(rest, p)
    ensures CutAtMatches([""] + rest, p)
  {
    assert "" + p == p;
  }

  /** One more character before a text that does not begin with the pattern then. */
  lemma CutWithChar(c: char, rest: seq<string>, p: string)
    requires p != "" && CutAtMatches(rest, p) && !(p <= [c] + Joined(rest, p))
    ensures CutAtMatches([[c] + rest[0]] + rest[1..], p)
  {
    var gaps := [[c] + rest[0]] + rest[1..];
    assert forall k :: 0 < k < |gaps| ==> gaps[k] == rest[k];
    if |rest| > 1 {
      assert Joined(rest, p) == (rest[0] + p) + Joined(rest[1..], p);
      assert forall i :: OccursAt(p, rest[0] + p, i) ==> i == |rest[0]|;
      FrontCut(c, rest[0], p, Joined(rest, p));
    } else {
      FrontClean(c, rest[0], p);
    }
  }

  /** The gaps are the cut of the text, and give what the replacement yields. */
  ghost predicate Cuts(gaps: seq<string>, t: string, p: string, r: string) {
    CutAtMatches(gaps, p) && Joined(gaps, p) == t && Joined(gaps, r) == Replace(t, p, r)
  }

  lemma MatchCuts(rest: seq<string>, t: string, p: string, r: string)
    requires p != "" && p <= t && Cuts(rest, t[|p|..], p, r)
    ensures Cuts([""] + rest, t, p, r)
  {
    CutWithMatch(rest, p);
    assert ([""] + rest)[1..] == rest && "" + p == p && "" + r == r;
    assert t == p + t[|p|..];
  }

  lemma CharCuts(rest: seq<string>, t: string, p: string, r: string)
    requires p != "" && t != "" && !(p <= t) && Cuts(rest, t[1..], p, r)
    ensures Cuts([[t[0]] + rest[0]] + rest[1..], t, p, r)
  {
    assert t == [t[0]] + t[1..];
    CutWithChar(t[0], rest, p);
    JoinedFront(rest, [t[0]], p);
    JoinedFront(rest, [t[0]], r);
  }

  /** Replacing a pattern, for every text: the text is cut at the leftmost matches that do not overlap,
      and put together again with the replacement in place of each of them. */
  lemma {:induction false} ReplaceCutsAndJoins(t: string, p: string, r: string) returns (gaps: seq<string>)
    requires p != ""
    ensures Cuts(gaps, t, p, r)
    decreases |t|
  {
    if t == "" {
      gaps := [""];
    } else if p <= t {
      var rest := ReplaceCutsAndJoins(t[|p|..], p, r);
      MatchCuts(rest, t, p, r);
      gaps := [""] + rest;
    } else {
      var rest := ReplaceCutsAndJoins(t[1..], p, r);
      CharCuts(rest, t, p, r);
      gaps := [[t[0]] + rest[0]] + rest[1..];
    }
  }

  lemma EarlierGap(a: string, b: string, x: string, y: string, p: string)
    requires a + p + x == b + p + y
    ensures |a| < |b| ==> OccursAt(p, b + p, |a|)
  {
    if |a| < |b| {
      var t := a + p + x;
      assert (b + p)[|a|..|a| + |p|] == t[|a|..|a| + |p|];
      assert t[|a|..|a| + |p|] == p;
    }
  }

  lemma FirstGap(a: string, b: string, x: string, y: string, p: string)
    requires a + p + x == b + p + y
    requires forall i :: OccursAt(p, a + p, i) ==> i == |a|
    requires forall i :: OccursAt(p, b + p, i) ==> i == |b|
    ensures a == b && x == y
  {
    var t := a + p + x;
    EarlierGap(a, b, x, y, p);
    EarlierGap(b, a, y, x, p);
    assert a == t[..|a|] && b == t[..|b|] && x == t[|a| + |p|..] && y == t[|b| + |p|..];
  }

  lemma LastGap(a: string, p: string, x: string)
    ensures Occurs(p, a + p + x)
  {
    assert (a + p + x)[|a|..|a| + |p|] == p;
    assert OccursAt(p, a + p + x, |a|);
  }

  /** There is only one such cut, so that it determines the result. */
  lemma {:induction false} CutIsUnique(a: seq<string>, b: seq<string>, p: string)
    requires p != "" && CutAtMatches(a, p) && CutAtMatches(b, p) && Joined(a, p) == Joined(b, p)
    ensures a == b
    decreases |a|
  {
    if |a| > 1 && |b| > 1 {
      assert forall i :: OccursAt(p, a[0] + p, i) ==> i == |a[0]|;
      FirstGap(a[0], b[0], Joined(a[1..], p), Joined(b[1..], p), p);
      CutIsUnique(a[1..], b[1..], p);
      assert a == [a[0]] + a[1..] && b == [b[0]] + b[1..];
    } else if |a| > 1 {
      LastGap(a[0], p, Joined(a[1..], p));
    } else if |b| > 1 {
      LastGap(b[0], p, Joined(b[1..], p));
    }
  }

  /** Exactly what a replacement yields. */
  lemma ReplaceIff(t: string, p: string, r: string, u: string)
    requires p != ""
    ensures Replace(t, p, r) == u <==> exists gaps :: CutAtMatches(gaps, p) && Joined(gaps, p) == t && Joined(gaps, r) == u
  {
    var cut := ReplaceCutsAndJoins(t, p, r);
    if exists gaps :: CutAtMatches(gaps, p) && Joined(gaps, p) == t && Joined(gaps, r) == u {
      var gaps :| CutAtMatches(gaps, p) && Joined(gaps, p) == t && Joined(gaps, r) == u;
      CutIsUnique(gaps, cut, p);
    }
  }

  function Singles(t: string): seq<string> {
    seq(|t|, i requires 0 <= i < |t| => [t[i]])
  }

  /** The empty pattern is found before, between and after all characters. */
  lemma {:induction false} EmptyPatternEverywhere(t: string, r: string)
    ensures Replace(t, "", r) == Joined([""] + Singles(t) + [""], r)
    decreases |t|
  {
    var gaps := [""] + Singles(t) + [""];
    assert gaps[0] == "" && "" + r == r;
    if t == "" {
      assert gaps[1..] == [""] && r + "" == r;
    } else {
      var rest := Singles(t[1..]) + [""];
      EmptyPatternEverywhere(t[1..], r);
      assert gaps[1..] == [[t[0]]] + rest && (gaps[1..])[1..] == rest;
      assert ([""] + Singles(t[1..]) + [""])[1..] == rest;
      assert Replace(t[1..], "", r) == r + Joined(rest, r);
      Assoc(r + [t[0]], r, Joined(rest, r));
      Assoc(r, [t[0]], r);
      Assoc(r, [t[0]] + r, Joined(rest, r));
    }
  }

  /** The order of the patterns matters: an earlier one can break up what a later one would match. */
  lemma FirstPatternFirst(r: string)
    requires 'o' !in r
    ensures RedactText("foobar", ["foo", "foobar"], r) == r + "bar"
    ensures RedactText("foobar", ["foobar", "foo"], r) == r
  {
    var a, b, t := "foo", "foobar", "foobar";
    assert Init([a, b]) == [a] && Init([b, a]) == [b] && Init([a]) == [] && Init([b]) == [];
    assert t[3..] == "bar" && t[6..] == "";
    NothingToReplace("bar", a, r);
    assert Replace(t, a, r) == r + "bar";
    NothingToReplace(r + "bar", b, r);
    assert Replace(t, b, r) == r + Replace("", b, r) == r + "" == r;
    NothingToReplace(r, a, r);
    assert RedactText(t, [a], r) == r + "bar" && RedactText(t, [b], r) == r;
  }

  lemma {:induction false} NothingToReplace(t: string, p: string, r: string)
    requires |p| > 1 && p[1] == 'o' && 'o' !in t
    ensures Replace(t, p, r) == t
    decreases |t|
  {
    if t != "" {
      NothingToReplace(t[1..], p, r);
      assert t == [t[0]] + t[1..];
    }
  }

  // ----- Occurrences and overlaps ----------------------------------------------

  predicate OccursAt(p: string, t: string, i: int) {
    0 <= i <= |t| - |p| && t[i..i + |p|] == p
  }

  ghost predicate Occurs(p: string, t: string) {
    exists i :: OccursAt(p, t, i)
  }

  /** Laid over each other with `p` starting at offset `k` of `r`, the two agree wherever both
      have a character. */
  predicate Agree(p: string, r: string, k: int) {
    forall j :: 0 <= j < |r| && 0 <= j - k < |p| ==> r[j] == p[j - k]
  }

  /** No placement in which `p` touches both sides of, or overlaps, the replacement agrees: neither
      contains the other, and no end of one is a beginning of the other. For an empty replacement
      this leaves only patterns of at most one character. */
  predicate Compatible(p: string, r: string) {
    forall k :: -|p| < k < |r| ==> !Agree(p, r, k)
  }

  // ----- Splicing -----------------------------------------------------------------

  /** A replacement between two texts creates no occurrence of `p`, whatever the texts. */
  ghost predicate SpliceSafe(p: string, r: string) {
    forall a, b :: Occurs(p, a + r + b) ==> Occurs(p, a) || Occurs(p, b)
  }

  /** An occurrence in a spliced text lies in one of the two texts, or touches the replacement. */
  lemma OccurrenceInSplice(p: string, r: string, a: string, b: string, i: int)
    requires p != "" && OccursAt(p, a + r + b, i)
    ensures OccursAt(p, a, i) || OccursAt(p, b, i - |a| - |r|)
         || (-|p| < i - |a| < |r| && Agree(p, r, i - |a|))
  {
    var t, k := a + r + b, i - |a|;
    assert forall j :: 0 <= j < |p| ==> t[i + j] == t[i..i + |p|][j] == p[j];
    if i + |p| <= |a| {
      assert a[i..i + |p|] == t[i..i + |p|];
    } else if k >= |r| {
      assert b[k - |r|..k - |r| + |p|] == t[i..i + |p|];
    } else {
      assert forall j :: 0 <= j < |r| && 0 <= j - k < |p| ==> r[j] == t[i + (j - k)];
    }
  }

  lemma SpliceKeepsClean(p: string, r: string, a: string, b: string)
    requires p != "" && Compatible(p, r)
    requires !Occurs(p, a) && !Occurs(p, b)
    ensures !Occurs(p, a + r + b)
  {
    if Occurs(p, a + r + b) {
      var i :| OccursAt(p, a + r + b, i);
      OccurrenceInSplice(p, r, a, b, i);
    }
  }

  /** An agreeing placement is realized by padding the replacement with the ends of the pattern. */
  lemma AgreeingPlacementSplices(p: string, r: string, k: int)
    requires p != "" && -|p| < k < |r| && Agree(p, r, k)
    ensures var a := if k < 0 then p[..-k] else "";
      var b := if k + |p| > |r| then p[|r| - k..] else "";
      Occurs(p, a + r + b) && |a| < |p| && |b| < |p|
  {
    var a := if k < 0 then p[..-k] else "";
    var b := if k + |p| > |r| then p[|r| - k..] else "";
    var t := a + r + b;
    var i := k + |a|;
    assert forall j :: 0 <= j < |p| ==> t[i + j] == p[j];
    assert t[i..i + |p|] == p;
    assert OccursAt(p, t, i);
  }

  lemma ShortIsClean(p: string, t: string)
    requires |t| < |p|
    ensures !Occurs(p, t)
  {
  }

  /** Exactly when a replacement can be inserted anywhere without creating the pattern. */
  lemma SpliceSafeIffCompatible(p: string, r: string)
    requires p != ""
    ensures SpliceSafe(p, r) <==> Compatible(p, r)
  {
    if Compatible(p, r) {
      forall a, b
        ensures Occurs(p, a + r + b) ==> Occurs(p, a) || Occurs(p, b)
      {
        if !Occurs(p, a) && !Occurs(p, b) {
          SpliceKeepsClean(p, r, a, b);
        }
      }
    } else {
      var k :| -|p| < k < |r| && Agree(p, r, k);
      AgreeingPlacementSplices(p, r, k);
      var a := if k < 0 then p[..-k] else "";
      var b := if k + |p| > |r| then p[|r| - k..] else "";
      ShortIsClean(p, a);
      ShortIsClean(p, b);
      assert !(Occurs(p, a + r + b) ==> Occurs(p, a) || Occurs(p, b));
    }
  }

  // ----- After redaction no pattern is left ------------------------------------------

  lemma OccursInPart(p: string, a: string, b: string, c: string)
    ensures Occurs(p, b) ==> Occurs(p, a + b + c)
  {
    if Occurs(p, b) {
      var i :| OccursAt(p, b, i);
      assert (a + b + c)[|a| + i..|a| + i + |p|] == b[i..i + |p|];
      assert OccursAt(p, a + b + c, |a| + i);
    }
  }

  lemma PartsOfClean(q: string, a: string, p: string, t: string)
    requires p <= t && !Occurs(q, a + t)
    ensures !Occurs(q, a) && !Occurs(q, t[|p|..])
  {
    assert "" + a + t == a + t;
    OccursInPart(q, "", a, t);
    assert (a + p) + t[|p|..] + "" == a + t;
    OccursInPart(q, a + p, t[|p|..], "");
  }

  /** A scan that finds no match at the front emits one character. */
  lemma EmitsOne(p: string, r: string, a: string, t: string)
    requires p != "" && t != "" && !(p <= t)
    ensures a + t == (a + [t[0]]) + t[1..]
    ensures a + Replace(t, p, r) == (a + [t[0]]) + Replace(t[1..], p, r)
  {
    assert t == [t[0]] + t[1..];
    Assoc(a, [t[0]], t[1..]);
    Assoc(a, [t[0]], Replace(t[1..], p, r));
  }

  /** A match puts the replacement between two texts without `q`. */
  lemma SpliceAtMatch(q: string, p: string, r: string, a: string, t: string)
    requires p != "" && q != "" && Compatible(q, r) && p <= t
    requires !Occurs(q, a) && !Occurs(q, "" + Replace(t[|p|..], p, r))
    ensures !Occurs(q, a + Replace(t, p, r))
  {
    var rest := Replace(t[|p|..], p, r);
    assert "" + rest == rest;
    SpliceKeepsClean(q, r, a, rest);
    Assoc(a, r, rest);
  }

  /** Replacing one pattern never recreates another that is compatible with the replacement. `a`
      is what has been emitted since the last match. */
  lemma {:induction false} OtherStaysAbsent(q: string, p: string, r: string, a: string, t: string)
    requires p != "" && q != "" && Compatible(q, r)
    requires !Occurs(q, a + t)
    ensures !Occurs(q, a + Replace(t, p, r))
    decreases |t|
  {
    if t == "" {
    } else if p <= t {
      PartsOfClean(q, a, p, t);
      assert "" + t[|p|..] == t[|p|..];
      OtherStaysAbsent(q, p, r, "", t[|p|..]);
      SpliceAtMatch(q, p, r, a, t);
    } else {
      EmitsOne(p, r, a, t);
      OtherStaysAbsent(q, p, r, a + [t[0]], t[1..]);
    }
  }

  /** No occurrence of `p` starts in the part already emitted. */
  ghost predicate Scanned(p: string, a: string, t: string) {
    forall i :: 0 <= i < |a| ==> !OccursAt(p, a + t, i)
  }

  lemma OccursAtExtends(p: string, a: string, t: string, i: int)
    ensures OccursAt(p, a, i) ==> OccursAt(p, a + t, i)
  {
    if OccursAt(p, a, i) {
      assert (a + t)[i..i + |p|] == a[i..i + |p|];
    }
  }

  lemma ScannedIsClean(p: string, a: string, t: string)
    requires p != "" && Scanned(p, a, t)
    ensures !Occurs(p, a)
  {
    forall i
      ensures !OccursAt(p, a, i)
    {
      OccursAtExtends(p, a, t, i);
    }
  }

  lemma OccursAtStart(p: string, a: string, t: string)
    ensures OccursAt(p, a + t, |a|) <==> p <= t
  {
    if |p| <= |t| {
      assert (a + t)[|a|..|a| + |p|] == t[..|p|];
    }
  }

  lemma ScannedAdvances(p: string, a: string, t: string)
    requires t != "" && !(p <= t) && Scanned(p, a, t)
    ensures Scanned(p, a + [t[0]], t[1..])
  {
    assert (a + [t[0]]) + t[1..] == a + t;
    OccursAtStart(p, a, t);
  }

  /** Replacing a pattern leaves no occurrence of it. */
  lemma {:induction false} SelfIsRemoved(p: string, r: string, a: string, t: string)
    requires p != "" && Compatible(p, r)
    requires Scanned(p, a, t)
    ensures !Occurs(p, a + Replace(t, p, r))
    decreases |t|
  {
    if t == "" {
      ScannedIsClean(p, a, t);
      assert a + "" == a;
    } else if p <= t {
      SelfIsRemoved(p, r, "", t[|p|..]);
      ScannedIsClean(p, a, t);
      SpliceAtMatch(p, p, r, a, t);
    } else {
      ScannedAdvances(p, a, t);
      EmitsOne(p, r, a, t);
      SelfIsRemoved(p, r, a + [t[0]], t[1..]);
    }
  }

  /** For every text: after redaction none of the configured patterns occurs, provided each is
      non-empty and compatible with the replacement. The patterns need not be compatible with
      each other, and their order does not matter. */
  lemma {:induction false} RedactionIsComplete(t: string, patterns: seq<string>, r: string)
    requires forall p <- patterns :: p != "" && Compatible(p, r)
    ensures forall p <- patterns :: !Occurs(p, RedactText(t, patterns, r))
    decreases |patterns|
  {
    if patterns != [] {
      var earlier, last := Init(patterns), Last(patterns);
      var t' := RedactText(t, earlier, r);
      EndsOf(patterns);
      RedactionIsComplete(t, earlier, r);
      assert "" + Replace(t', last, r) == Replace(t', last, r);
      SelfIsRemoved(last, r, "", t');
      forall q | q in earlier
        ensures !Occurs(q, Replace(t', last, r))
      {
        assert "" + t' == t';
        OtherStaysAbsent(q, last, r, "", t');
      }
    }
  }

  // ----- Where the condition is exact ---------------------------------------------------

  /** No proper shift of the pattern agrees with itself. */
  predicate Unbordered(p: string) {
    forall k :: 0 < k < |p| ==> !Agree(p, p, k)
  }

  /** An unbordered pattern between paddings shorter than itself is matched exactly where it
      was put. */
  lemma {:induction false} MatchesWherePut(p: string, r: string, a: string, b: string)
    requires p != "" && Unbordered(p) && |a| < |p| && |b| < |p|
    ensures Replace(a + p + b, p, r) == a + r + b
    decreases |a|
  {
    if a == "" {
      assert a + p + b == p + b && a + r + b == r + b;
      MatchedFirst(p, r, b);
    } else {
      NoMatchBefore(p, a, b);
      MatchesWherePut(p, r, a[1..], b);
      MatchedLater(p, r, a, b);
    }
  }

  lemma MatchedLater(p: string, r: string, a: string, b: string)
    requires p != "" && a != "" && !(p <= a + p + b)
    requires Replace(a[1..] + p + b, p, r) == a[1..] + r + b
    ensures Replace(a + p + b, p, r) == a + r + b
  {
    FrontOf(a, p, b);
    FrontOf(a, r, b);
  }

  lemma MatchedFirst(p: string, r: string, b: string)
    requires p != "" && |b| < |p|
    ensures Replace(p + b, p, r) == r + b
  {
    assert (p + b)[|p|..] == b;
    NoMatchInShort(p, r, b);
  }

  lemma FrontOf(a: string, m: string, b: string)
    requires a != ""
    ensures var t := a + m + b;
      t != "" && t == [t[0]] + t[1..] && t[0] == a[0] && t[1..] == a[1..] + m + b
  {
  }

  lemma NoMatchBefore(p: string, a: string, b: string)
    requires Unbordered(p) && 0 < |a| < |p|
    ensures !(p <= a + p + b)
  {
    var t, k := a + p + b, |a|;
    if p <= t {
      forall j | 0 <= j < |p| && 0 <= j - k < |p|
        ensures p[j] == p[j - k]
      {
        assert p[j] == t[j] == p[j - k];
      }
      assert Agree(p, p, k);
    }
  }

  lemma {:induction false} NoMatchInShort(p: string, r: string, b: string)
    requires |b| < |p|
    ensures Replace(b, p, r) == b
    decreases |b|
  {
    if b != "" {
      NoMatchInShort(p, r, b[1..]);
    }
  }

  ghost predicate Removed(p: string, r: string, t: string) {
    !Occurs(p, Replace(t, p, r))
  }

  /** For a pattern that does not overlap itself the condition is exact: one pass removes the
      pattern from every text if and only if they are compatible. */
  lemma RemovedFromEveryTextIffCompatible(p: string, r: string)
    requires p != "" && Unbordered(p)
    ensures (forall t :: Removed(p, r, t)) <==> Compatible(p, r)
  {
    if Compatible(p, r) {
      forall t
        ensures Removed(p, r, t)
      {
        SelfIsRemoved(p, r, "", t);
        assert "" + Replace(t, p, r) == Replace(t, p, r);
      }
    } else {
      var t := Survivor(p, r);
      assert !Removed(p, r, t);
    }
  }

  /** A text in which one pass leaves an unbordered pattern that overlaps the replacement. */
  lemma Survivor(p: string, r: string) returns (t: string)
    requires p != "" && Unbordered(p) && !Compatible(p, r)
    ensures !Removed(p, r, t)
  {
    var k :| -|p| < k < |r| && Agree(p, r, k);
    AgreeingPlacementSplices(p, r, k);
    var a := if k < 0 then p[..-k] else "";
    var b := if k + |p| > |r| then p[|r| - k..] else "";
    MatchesWherePut(p, r, a, b);
    t := a + p + b;
  }

  lemma OccursInCons(c: char, t: string)
    requires Occurs("aa", [c] + t)
    ensures Occurs("aa", t) || (c == 'a' && t != "" && t[0] == 'a')
  {
    var u := [c] + t;
    var i :| OccursAt("aa", u, i);
    assert u[i] == u[i..i + 2][0] && u[i + 1] == u[i..i + 2][1];
    if i > 0 {
      assert t[i - 1..i + 1] == u[i..i + 2];
      assert OccursAt("aa", t, i - 1);
    }
  }

  /** For a pattern that overlaps itself it is not: `ab` shares its first letter with the end of
      `aa`, yet replacing `aa` by `ab` removes `aa` from every text. */
  lemma {:induction false} OverlapNeedNotShow(t: string)
    ensures !Compatible("aa", "ab")
    ensures Removed("aa", "ab", t)
    decreases |t|
  {
    assert Agree("aa", "ab", -1);
    if t != "" {
      if "aa" <= t {
        var rest := Replace(t[2..], "aa", "ab");
        OverlapNeedNotShow(t[2..]);
        assert Replace(t, "aa", "ab") == "ab" + rest;
        assert "ab" + rest == ['a'] + (['b'] + rest);
        if Occurs("aa", ['a'] + (['b'] + rest)) {
          OccursInCons('a', ['b'] + rest);
          OccursInCons('b', rest);
        }
      } else {
        var rest := Replace(t[1..], "aa", "ab");
        OverlapNeedNotShow(t[1..]);
        assert rest != "" && t[0] == 'a' ==> rest[0] == t[1];
        if Occurs("aa", [t[0]] + rest) {
          OccursInCons(t[0], rest);
        }
      }
    }
  }

  // ----- Any pattern: short texts decide -------------------------------------------------

  lemma OccursAtShift(p: string, a: string, t: string, i: int)
    requires OccursAt(p, a + t, i) && i >= |a|
    ensures OccursAt(p, t, i - |a|)
  {
    assert t[i - |a|..i - |a| + |p|] == (a + t)[i..i + |p|];
  }

  /** A text with a surviving occurrence, cut to where the occurrence begins: in the first character
      emitted, or in the replacement of a match at the front. */
  lemma {:induction false} TrimLeft(p: string, r: string, t: string, i: int) returns (u: string, j: int)
    requires p != "" && OccursAt(p, Replace(t, p, r), i)
    ensures u != "" && OccursAt(p, Replace(u, p, r), j)
    ensures if p <= u then j < |r| else j == 0
    decreases |t|
  {
    if p <= t {
      if i < |r| {
        u, j := t, i;
      } else {
        OccursAtShift(p, r, Replace(t[|p|..], p, r), i);
        u, j := TrimLeft(p, r, t[|p|..], i - |r|);
      }
    } else if i == 0 {
      u, j := t, i;
    } else {
      OccursAtShift(p, [t[0]], Replace(t[1..], p, r), i);
      u, j := TrimLeft(p, r, t[1..], i - 1);
    }
  }

  /** As much of the text as emits `n` characters; of matches that follow each other and emit
      nothing only the last is kept. */
  function Cut(t: string, p: string, r: string, n: nat): string
    requires p != ""
    decreases |t|
  {
    if n == 0 || t == "" then ""
    else if p <= t then
      if r == "" && p <= t[|p|..] then Cut(t[|p|..], p, r, n)
      else p + Cut(t[|p|..], p, r, if n > |r| then n - |r| else 0)
    else [t[0]] + Cut(t[1..], p, r, n - 1)
  }

  /** The cut begins like the text, for the length of a pattern. */
  lemma {:induction false} CutBegins(t: string, p: string, r: string, n: nat, k: nat)
    requires p != "" && k < |p| && k < |Cut(t, p, r, n)|
    ensures k < |t| && Cut(t, p, r, n)[k] == t[k]
    decreases |t|
  {
    if p <= t {
      if r == "" && p <= t[|p|..] {
        CutBegins(t[|p|..], p, r, n, k);
      }
    } else if k > 0 {
      CutBegins(t[1..], p, r, n - 1, k - 1);
    }
  }

  /** A pattern at the front of the cut is at the front of the text. */
  lemma CutFront(t: string, p: string, r: string, n: nat)
    requires p != "" && t != "" && p <= [t[0]] + Cut(t[1..], p, r, n)
    ensures p <= t
  {
    var u := [t[0]] + Cut(t[1..], p, r, n);
    forall k | 0 <= k < |p|
      ensures k < |t| && u[k] == t[k]
    {
      if k > 0 {
        CutBegins(t[1..], p, r, n, k - 1);
      }
    }
    assert u[|p| - 1] == p[|p| - 1];
    assert |p| <= |t|;
    assert p == u[..|p|] == t[..|p|];
  }

  lemma CutMatchesNoEarlier(t: string, p: string, r: string, n: nat)
    requires p != "" && t != "" && !(p <= t)
    ensures !(p <= [t[0]] + Cut(t[1..], p, r, n))
  {
    if p <= [t[0]] + Cut(t[1..], p, r, n) {
      CutFront(t, p, r, n);
    }
  }

  /** The first `n` characters are the same, as far as there are so many. */
  predicate SameStart(n: nat, out: string, full: string) {
    var m := if n < |full| then n else |full|;
    m <= |out| && out[..m] == full[..m]
  }

  lemma SameStartCons(n: nat, a: string, out: string, full: string)
    requires SameStart(if n > |a| then n - |a| else 0, out, full)
    ensures SameStart(n, a + out, a + full)
  {
    var m := if n < |a + full| then n else |a + full|;
    if m <= |a| {
      assert (a + out)[..m] == a[..m] == (a + full)[..m];
    } else {
      assert (a + out)[..m] == a + out[..m - |a|];
      assert (a + full)[..m] == a + full[..m - |a|];
    }
  }

  lemma OccursInStart(p: string, out: string, full: string, j: int)
    requires OccursAt(p, full, j) && j + |p| <= |out| && out[..j + |p|] == full[..j + |p|]
    ensures OccursAt(p, out, j)
  {
    assert out[j..j + |p|] == out[..j + |p|][j..];
    assert full[j..j + |p|] == full[..j + |p|][j..];
  }

  lemma ReplaceMatch(p: string, r: string, rest: string)
    requires p != ""
    ensures Replace(p + rest, p, r) == r + Replace(rest, p, r)
  {
    assert (p + rest)[|p|..] == rest;
  }

  lemma ReplaceLiteral(p: string, r: string, c: char, rest: string)
    requires p != "" && !(p <= [c] + rest)
    ensures Replace([c] + rest, p, r) == [c] + Replace(rest, p, r)
  {
    assert ([c] + rest)[1..] == rest;
  }

  lemma CutAtMatch(p: string, r: string, rest: string, cut: string, n: nat)
    requires p != "" && SameStart(if n > |r| then n - |r| else 0, Replace(cut, p, r), Replace(rest, p, r))
    ensures SameStart(n, Replace(p + cut, p, r), Replace(p + rest, p, r))
  {
    ReplaceMatch(p, r, rest);
    ReplaceMatch(p, r, cut);
    SameStartCons(n, r, Replace(cut, p, r), Replace(rest, p, r));
  }

  lemma CutAtLiteral(p: string, r: string, c: char, rest: string, cut: string, n: nat)
    requires p != "" && n > 0 && !(p <= [c] + rest) && !(p <= [c] + cut)
    requires SameStart(n - 1, Replace(cut, p, r), Replace(rest, p, r))
    ensures SameStart(n, Replace([c] + cut, p, r), Replace([c] + rest, p, r))
  {
    ReplaceLiteral(p, r, c, rest);
    ReplaceLiteral(p, r, c, cut);
    SameStartCons(n, [c], Replace(cut, p, r), Replace(rest, p, r));
  }

  lemma {:induction false} CutEmits(t: string, p: string, r: string, n: nat)
    requires p != ""
    ensures SameStart(n, Replace(Cut(t, p, r, n), p, r), Replace(t, p, r))
    decreases |t|
  {
    if n > 0 && t != "" {
      if p <= t {
        var rest, m := t[|p|..], if n > |r| then n - |r| else 0;
        assert t == p + rest;
        if r == "" && p <= rest {
          CutEmits(rest, p, r, n);
          ReplaceMatch(p, r, rest);
          assert "" + Replace(rest, p, r) == Replace(rest, p, r);
        } else {
          CutEmits(rest, p, r, m);
          CutAtMatch(p, r, rest, Cut(rest, p, r, m), n);
        }
      } else {
        assert t == [t[0]] + t[1..];
        CutEmits(t[1..], p, r, n - 1);
        CutMatchesNoEarlier(t, p, r, n - 1);
        CutAtLiteral(p, r, t[0], t[1..], Cut(t[1..], p, r, n - 1), n);
      }
    }
  }

  lemma {:induction false} CutIsShort(t: string, p: string, r: string, n: nat)
    requires p != ""
    ensures |Cut(t, p, r, n)| <= 2 * n * |p| + if p <= t then |p| else 0
    decreases |t|
  {
    if n > 0 && t != "" {
      if p <= t {
        var rest := t[|p|..];
        if r == "" {
          CutIsShort(rest, p, r, n);
        } else {
          var m := if n > |r| then n - |r| else 0;
          CutIsShort(rest, p, r, m);
          OneLess(n, m, |p|);
        }
      } else {
        CutIsShort(t[1..], p, r, n - 1);
        OneLess(n, n - 1, |p|);
      }
    }
  }

  lemma OneLess(n: nat, m: nat, l: nat)
    requires m < n
    ensures 2 * m * l + l <= 2 * n * l - l
  {
    assert 2 * n * l - 2 * m * l == 2 * (n - m) * l;
    assert (n - m) * l >= l;
  }

  lemma {:induction false} CutIsOverPattern(t: string, p: string, r: string, n: nat)
    requires p != ""
    requires forall k :: 0 <= k < n && k < |Replace(t, p, r)| ==> Replace(t, p, r)[k] in p
    ensures forall c <- Cut(t, p, r, n) :: c in p
    decreases |t|
  {
    if n > 0 && t != "" {
      var full := Replace(t, p, r);
      if p <= t {
        var rest := t[|p|..];
        assert full == r + Replace(rest, p, r);
        assert forall k :: 0 <= k < |Replace(rest, p, r)| ==> Replace(rest, p, r)[k] == full[|r| + k];
        CutIsOverPattern(rest, p, r, if n > |r| then n - |r| else 0);
      } else {
        assert forall k :: 0 <= k < |Replace(t[1..], p, r)| ==> Replace(t[1..], p, r)[k] == full[1 + k];
        CutIsOverPattern(t[1..], p, r, n - 1);
        assert full[0] == t[0];
      }
    }
  }

  /** Of bounded length, over the characters of the pattern. */
  predicate ShortOver(t: string, p: string, r: string) {
    |t| <= (2 * (|p| + |r|) + 1) * |p| && forall c <- t :: c in p
  }

  lemma CutKeepsOccurrence(p: string, r: string, v: string, j: int)
    requires p != "" && OccursAt(p, Replace(v, p, r), j)
    ensures !Removed(p, r, Cut(v, p, r, j + |p|))
  {
    var full, n := Replace(v, p, r), j + |p|;
    var out := Replace(Cut(v, p, r, n), p, r);
    CutEmits(v, p, r, n);
    OccursInStart(p, out, full, j);
  }

  lemma CutIsShortOver(p: string, r: string, v: string, j: int)
    requires p != "" && v != "" && OccursAt(p, Replace(v, p, r), j)
    requires if p <= v then j < |r| else j == 0
    ensures ShortOver(Cut(v, p, r, j + |p|), p, r)
  {
    CutIsShort(v, p, r, j + |p|);
    LengthBound(j + |p|, |p| + |r|, |p|);
    FrontIsOverPattern(p, r, v, j);
  }

  lemma ShortSurvivor(p: string, r: string, t: string) returns (u: string)
    requires p != "" && !Removed(p, r, t)
    ensures ShortOver(u, p, r) && !Removed(p, r, u)
  {
    var i :| OccursAt(p, Replace(t, p, r), i);
    var v, j := TrimLeft(p, r, t, i);
    CutKeepsOccurrence(p, r, v, j);
    CutIsShortOver(p, r, v, j);
    u := Cut(v, p, r, j + |p|);
  }

  lemma LengthBound(n: nat, m: nat, l: nat)
    requires n <= m
    ensures 2 * n * l + l <= (2 * m + 1) * l
  {
    assert (2 * m + 1) * l - 2 * n * l - l == 2 * (m - n) * l;
    assert (m - n) * l >= 0;
  }

  lemma FrontIsOverPattern(p: string, r: string, v: string, j: int)
    requires p != "" && v != "" && OccursAt(p, Replace(v, p, r), j)
    requires if p <= v then j < |r| else j == 0
    ensures forall c <- Cut(v, p, r, j + |p|) :: c in p
  {
    var full, n := Replace(v, p, r), j + |p|;
    forall k | j <= k < n
      ensures full[k] in p
    {
      assert full[k] == full[j..n][k - j];
    }
    if p <= v {
      var rest := v[|p|..];
      assert full == r + Replace(rest, p, r);
      assert forall k :: 0 <= k < |Replace(rest, p, r)| ==> Replace(rest, p, r)[k] == full[|r| + k];
      CutIsOverPattern(rest, p, r, if n > |r| then n - |r| else 0);
    } else {
      CutIsOverPattern(v, p, r, n);
    }
  }

  /** Exactly when one pass removes a pattern from every text, whatever overlaps there are: if and
      only if it removes it from each of the finitely many short texts over the pattern's own
      characters. */
  lemma RemovedFromEveryTextIffFromShort(p: string, r: string)
    requires p != ""
    ensures (forall t :: Removed(p, r, t)) <==> (forall t :: ShortOver(t, p, r) ==> Removed(p, r, t))
  {
    if forall t :: ShortOver(t, p, r) ==> Removed(p, r, t) {
      forall t
        ensures Removed(p, r, t)
      {
        if !Removed(p, r, t) {
          var u := ShortSurvivor(p, r, t);
        }
      }
    }
  }
}
