/** Small datatypes shared by every module. */
module Basics {

  datatype Option<+T> = None | Some(value: T)

  datatype Result<+T> = Ok(value: T) | Err(error: string)

  newtype byte = x: int | 0 <= x < 256

  function Min(a: int, b: int): int {
    if a <= b then a else b
  }

  function Max(a: int, b: int): int {
    if a >= b then a else b
  }

  /** The number of entries that are filled. */
  function Filled<T>(slots: seq<Option<T>>): nat {
    if slots == [] then 0 else Filled(slots[..|slots|-1]) + (if slots[|slots|-1].Some? then 1 else 0)
  }

  lemma {:induction false} FilledBounds<T>(slots: seq<Option<T>>)
    ensures Filled(slots) <= |slots|
    ensures Filled(slots) == |slots| <==> forall i :: 0 <= i < |slots| ==> slots[i].Some?
    ensures Filled(slots) == 0 <==> forall i :: 0 <= i < |slots| ==> slots[i].None?
  {
    if slots != [] {
      FilledBounds(slots[..|slots|-1]);
    }
  }

  lemma {:induction false} FilledUpdate<T>(slots: seq<Option<T>>, i: nat, x: Option<T>)
    requires i < |slots|
    ensures Filled(slots[i := x]) ==
            Filled(slots) - (if slots[i].Some? then 1 else 0) + (if x.Some? then 1 else 0)
  {
    var n := |slots| - 1;
    if i == n {
      assert slots[i := x][..n] == slots[..n];
    } else {
      assert slots[i := x][..n] == slots[..n][i := x];
      FilledUpdate(slots[..n], i, x);
    }
  }

  lemma {:induction false} RemoveAt<T>(s: seq<T>, k: nat)
    requires k < |s|
    ensures multiset(s) == multiset(s[..k] + s[k+1..]) + multiset{s[k]}
  {
    assert s == s[..k] + [s[k]] + s[k+1..];
  }

  lemma {:induction false} DropLast<T>(s: seq<T>, t: seq<T>)
    requires multiset(s) == multiset(t)
    requires s != [] && t != [] && s[|s|-1] == t[|t|-1]
    ensures multiset(s[..|s|-1]) == multiset(t[..|t|-1])
  {
    assert s == s[..|s|-1] + [s[|s|-1]];
    assert t == t[..|t|-1] + [t[|t|-1]];
    assert multiset(s[..|s|-1]) == multiset(s) - multiset{s[|s|-1]};
  }

  lemma {:induction false} InsertAt<T>(s: seq<T>, k: nat, x: T)
    requires k <= |s|
    ensures multiset(s[..k] + [x] + s[k..]) == multiset(s) + multiset{x}
  {
    assert s == s[..k] + s[k..];
  }

  /** Sequences with the same elements have the same length and members. */
  lemma {:induction false} SameMultiset<T>(s: seq<T>, t: seq<T>)
    requires multiset(s) == multiset(t)
    ensures |s| == |t|
    ensures forall x :: x in s <==> x in t
  {
    assert |multiset(s)| == |multiset(t)|;
    forall x
      ensures x in s <==> x in t
    {
      assert x in s <==> x in multiset(s);
      assert x in t <==> x in multiset(t);
    }
  }

  // ---- Order ----

  predicate StringLess(a: string, b: string) {
    b != [] && (a == [] || a[0] < b[0] || (a[0] == b[0] && StringLess(a[1..], b[1..])))
  }

  lemma {:induction false} StringOrder(a: string, b: string)
    ensures !StringLess(a, a)
    ensures StringLess(a, b) ==> !StringLess(b, a)
    ensures a == b || StringLess(a, b) || StringLess(b, a)
  {
    if a != [] {
      StringOrder(a[1..], a[1..]);
      if b != [] {
        StringOrder(a[1..], b[1..]);
        assert a[0] == b[0] && a[1..] == b[1..] ==> a == [a[0]] + a[1..] == b;
      }
    }
  }

  lemma {:induction false} StringTransitive(a: string, b: string, c: string)
    requires StringLess(a, b) && StringLess(b, c)
    ensures StringLess(a, c)
  {
    if a != [] && a[0] == b[0] == c[0] {
      StringTransitive(a[1..], b[1..], c[1..]);
    }
  }

  /** Every non-empty finite set has a first element. */
  lemma {:induction false} LeastExists<K>(ids: set<K>, less: (K, K) -> bool) returns (least: K)
    requires ids != {}
    requires forall x, y :: x in ids && y in ids ==> x == y || less(x, y) || less(y, x)
    requires forall x, y, z :: x in ids && y in ids && z in ids && less(x, y) && less(y, z) ==> less(x, z)
    ensures least in ids && forall y <- ids :: y == least || less(least, y)
  {
    var x :| x in ids;
    least := x;
    if ids != {x} {
      var m := LeastExists(ids - {x}, less);
      least := if less(x, m) then x else m;
    }
  }
}
