/** What several modules share. */
module Basics {
  datatype Option<+T> = None | Some(value: T)

  type byte = b: int | 0 <= b < 256

  function Min(a: nat, b: nat): nat {
    if a < b then a else b
  }

  function Max(a: nat, b: nat): nat {
    if a < b then b else a
  }

  predicate Distinct<T(==)>(s: seq<T>) {
    forall i, j :: 0 <= i < j < |s| ==> s[i] != s[j]
  }

  /** AST_LIST_REMOVE: the first occurrence is unlinked. */
  function Unlink<T(==)>(s: seq<T>, x: T): seq<T> {
    if s == [] then []
    else if s[0] == x then s[1..]
    else [s[0]] + Unlink(s[1..], x)
  }

  /** From a list without repetitions exactly x leaves. */
  lemma {:induction false} Unlinked<T>(s: seq<T>, x: T)
    requires Distinct(s)
    ensures var r := Unlink(s, x);
      && Distinct(r)
      && |r| == |s| - (if x in s then 1 else 0)
      && forall y :: y in r <==> y in s && y != x
  {
    if s != [] && s[0] != x {
      var r := Unlink(s[1..], x);
      Unlinked(s[1..], x);
      assert s[0] !in s[1..];
      forall j, k | 0 <= j < k < |r| + 1 ensures ([s[0]] + r)[j] != ([s[0]] + r)[k] {
        assert r[k - 1] in r;
      }
      assert s == [s[0]] + s[1..];
    } else if s != [] {
      assert s[0] !in s[1..];
      assert s == [s[0]] + s[1..];
    }
  }
}
