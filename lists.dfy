/**
 * Collection helpers shared by the models: .NET's `List<T>.Remove`, which
 * drops only the first occurrence of a value, distinct sequences and set
 * sizes.
 */
module Lists {

  /** No element of `s` occurs twice. */
  predicate Distinct<T(==)>(s: seq<T>)
  {
    forall i, j :: 0 <= i < j < |s| ==> s[i] != s[j]
  }

  /** The elements of `s`, as a set. */
  function Elements<T>(s: seq<T>): set<T>
  {
    set x | x in s
  }

  /** One more element of a prefix adds that element. */
  lemma ElementsPrefix<T>(s: seq<T>, i: nat)
    requires i < |s|
    ensures Elements(s[..i + 1]) == Elements(s[..i]) + {s[i]}
  {
    assert s[..i + 1] == s[..i] + [s[i]];
  }

  /** `List<T>.Remove(x)`: drops the first occurrence of `x`, if any. */
  function RemoveFirst<T(==)>(s: seq<T>, x: T): (r: seq<T>)
    ensures x !in s ==> r == s
    ensures multiset(r) == multiset(s) - multiset{x}
  {
    if |s| == 0 then s
    else
      assert s == [s[0]] + s[1..];
      if s[0] == x then s[1..] else [s[0]] + RemoveFirst(s[1..], x)
  }

  /** The copy removed is the first one: everything before and after it stays in order. */
  lemma {:induction false} RemoveFirstAt<T>(s: seq<T>, x: T, i: nat)
    requires i < |s| && s[i] == x && x !in s[..i]
    ensures RemoveFirst(s, x) == s[..i] + s[i + 1..]
  {
    if i > 0 {
      assert s[0] != x by { assert s[0] == s[..i][0]; }
      assert s[1..][..i - 1] == s[1..i];
      assert x !in s[1..][..i - 1];
      RemoveFirstAt(s[1..], x, i - 1);
      assert s[..i] == [s[0]] + s[1..i];
    }
  }

  /** Removing one copy of `x` keeps every other value of the list. */
  lemma RemoveFirstKeeps<T>(s: seq<T>, x: T, y: T)
    requires y in s && y != x
    ensures y in RemoveFirst(s, x)
  {
    assert multiset(s)[y] > 0;
    assert multiset(RemoveFirst(s, x))[y] == multiset(s)[y];
  }

  /** A non-empty set has a member (the witness for picking one). */
  lemma Member<T>(s: set<T>) returns (x: T)
    requires s != {}
    ensures x in s
  {
    x :| x in s;
  }

  /** Adding a new element grows a set by one. */
  lemma AddOneMore<T>(s: set<T>, x: T)
    requires x !in s
    ensures |s + {x}| == |s| + 1
  {
  }

  /** A subset is no larger (the measure of every worklist loop). */
  lemma {:induction false} SubsetNotLarger<T>(a: set<T>, b: set<T>)
    requires a <= b
    ensures |a| <= |b|
    decreases a
  {
    if a != {} {
      var x :| x in a;
      SubsetNotLarger(a - {x}, b - {x});
    }
  }

  /** Adding `x` and then removing `r` adds what `e` adds, when `x` and `e` differ only inside `r`. */
  lemma Regrouped<T>(v: set<T>, x: set<T>, e: set<T>, r: set<T>)
    requires x - r == e - r
    ensures (v + x) - r == v + e - r
  {
    forall y
      ensures y in (v + x) - r <==> y in v + e - r
    {
      assert y in x - r <==> y in e - r;
    }
  }
}
