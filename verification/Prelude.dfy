/** Types shared by every component. */
module Prelude {
  datatype Option<+T> = None | Some(value: T)

  datatype Result<+T, +E> = Ok(value: T) | Err(error: E)

  /** `Init` and `Last` peel a log from the right: the last operation is the newest. */
  function Init<T>(s: seq<T>): seq<T>
    requires s != []
  {
    s[..|s| - 1]
  }

  function Last<T>(s: seq<T>): T
    requires s != []
  {
    s[|s| - 1]
  }

  predicate NoDup<T(==)>(s: seq<T>) {
    forall i, j :: 0 <= i < j < |s| ==> s[i] != s[j]
  }

  lemma EndsOf<T>(s: seq<T>)
    requires s != []
    ensures s == Init(s) + [Last(s)]
    ensures Last(s) in s && forall x <- Init(s) :: x in s
  {
    assert s[|s| - 1] == Last(s);
    forall x | x in Init(s)
      ensures x in s
    {
      var i :| 0 <= i < |Init(s)| && Init(s)[i] == x;
      assert s[i] == x;
    }
  }

  lemma InitSnoc<T>(s: seq<T>, x: T)
    ensures Init(s + [x]) == s && Last(s + [x]) == x
  {
  }

  lemma Assoc<T>(a: seq<T>, b: seq<T>, c: seq<T>)
    ensures (a + b) + c == a + (b + c)
  {
  }

  lemma TakeSnoc<T>(s: seq<T>, i: nat)
    requires i < |s|
    ensures s[..i + 1] == s[..i] + [s[i]]
  {
  }
}
