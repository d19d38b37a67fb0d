/**
  Sorting by a key of strings, compared as tuples of byte strings are.
 */
module Sorting {
  predicate StringLess(a: string, b: string) {
    if a == [] then b != [] else b != [] && (a[0] < b[0] || (a[0] == b[0] && StringLess(a[1..], b[1..])))
  }

  predicate KeyLess(a: seq<string>, b: seq<string>) {
    if a == [] then b != [] else b != [] && (StringLess(a[0], b[0]) || (a[0] == b[0] && KeyLess(a[1..], b[1..])))
  }

  lemma {:induction false} StringOrder(a: string, b: string)
    ensures !(StringLess(a, b) && StringLess(b, a)) && (a == b || StringLess(a, b) || StringLess(b, a)) && !StringLess(a, a)
  {
    if a != [] && b != [] {
      StringOrder(a[1..], b[1..]);
    }
    if a != [] {
      StringOrder(a[1..], a[1..]);
    }
  }

  lemma {:induction false} StringTransitive(a: string, b: string, c: string)
    requires StringLess(a, b) && StringLess(b, c)
    ensures StringLess(a, c)
  {
    if a != [] && a[0] == b[0] == c[0] {
      StringTransitive(a[1..], b[1..], c[1..]);
    }
  }

  lemma {:induction false} KeyOrder(a: seq<string>, b: seq<string>)
    ensures !(KeyLess(a, b) && KeyLess(b, a)) && (a == b || KeyLess(a, b) || KeyLess(b, a)) && !KeyLess(a, a)
  {
    if a != [] && b != [] {
      StringOrder(a[0], b[0]);
      KeyOrder(a[1..], b[1..]);
    }
    if a != [] {
      StringOrder(a[0], a[0]);
      KeyOrder(a[1..], a[1..]);
    }
  }

  lemma {:induction false} KeyTransitive(a: seq<string>, b: seq<string>, c: seq<string>)
    requires KeyLess(a, b) && KeyLess(b, c)
    ensures KeyLess(a, c)
  {
    if a != [] {
      StringOrder(a[0], b[0]);
      StringOrder(b[0], c[0]);
      if StringLess(a[0], b[0]) && StringLess(b[0], c[0]) {
        StringTransitive(a[0], b[0], c[0]);
      } else if a[0] == b[0] == c[0] {
        KeyTransitive(a[1..], b[1..], c[1..]);
      }
    }
  }

  function InsertBy<T>(x: T, xs: seq<T>, key: T -> seq<string>): (r: seq<T>)
    ensures multiset(r) == multiset(xs) + multiset{x}
  {
    if xs == [] || KeyLess(key(x), key(xs[0])) then [x] + xs
    else
      assert xs == [xs[0]] + xs[1..];
      [xs[0]] + InsertBy(x, xs[1..], key)
  }

  function SortBy<T>(xs: seq<T>, key: T -> seq<string>): (r: seq<T>)
    ensures multiset(r) == multiset(xs) && |r| == |xs|
  {
    if xs == [] then []
    else
      assert xs == [xs[0]] + xs[1..];
      var r := InsertBy(xs[0], SortBy(xs[1..], key), key);
      assert |multiset(r)| == |multiset(xs)|;
      r
  }

  predicate StrictlySorted<T>(xs: seq<T>, key: T -> seq<string>) {
    forall i, j :: 0 <= i < j < |xs| ==> KeyLess(key(xs[i]), key(xs[j]))
  }

  ghost predicate DistinctKeys<T>(xs: seq<T>, key: T -> seq<string>) {
    forall i, j :: 0 <= i < j < |xs| ==> key(xs[i]) != key(xs[j])
  }

  lemma {:induction false} InsertSorted<T>(x: T, xs: seq<T>, key: T -> seq<string>)
    requires StrictlySorted(xs, key) && forall i :: 0 <= i < |xs| ==> key(xs[i]) != key(x)
    ensures StrictlySorted(InsertBy(x, xs, key), key)
  {
    if xs != [] {
      KeyOrder(key(x), key(xs[0]));
      if KeyLess(key(x), key(xs[0])) {
        forall j | 0 < j < |xs|
          ensures KeyLess(key(x), key(xs[j]))
        {
          KeyTransitive(key(x), key(xs[0]), key(xs[j]));
        }
      } else {
        InsertSorted(x, xs[1..], key);
        var rest := InsertBy(x, xs[1..], key);
        forall j | 0 <= j < |rest|
          ensures KeyLess(key(xs[0]), key(rest[j]))
        {
          assert rest[j] in multiset(rest);
          assert rest[j] == x || rest[j] in xs[1..];
        }
      }
    }
  }

  /** Sorting items with different keys gives a strictly sorted list of the same items. */
  lemma {:induction false} SortSorted<T>(xs: seq<T>, key: T -> seq<string>)
    requires DistinctKeys(xs, key)
    ensures StrictlySorted(SortBy(xs, key), key)
  {
    if xs != [] {
      SortSorted(xs[1..], key);
      var rest := SortBy(xs[1..], key);
      forall i | 0 <= i < |rest|
        ensures key(rest[i]) != key(xs[0])
      {
        assert rest[i] in multiset(xs[1..]);
        assert rest[i] in xs[1..];
      }
      InsertSorted(xs[0], rest, key);
    }
  }

  lemma HeadsEqual<T>(xs: seq<T>, ys: seq<T>, key: T -> seq<string>)
    requires StrictlySorted(xs, key) && StrictlySorted(ys, key) && xs != [] && ys != []
    requires xs[0] in ys && ys[0] in xs
    ensures xs[0] == ys[0]
  {
    var i :| 0 <= i < |ys| && ys[i] == xs[0];
    var j :| 0 <= j < |xs| && xs[j] == ys[0];
    KeyOrder(key(xs[0]), key(ys[0]));
  }

  /** A strictly sorted list is determined by what is in it. */
  lemma {:induction false} SortedUnique<T>(xs: seq<T>, ys: seq<T>, key: T -> seq<string>)
    requires StrictlySorted(xs, key) && StrictlySorted(ys, key) && multiset(xs) == multiset(ys)
    ensures xs == ys
    decreases |xs|
  {
    assert |xs| == |multiset(xs)| == |multiset(ys)| == |ys|;
    if xs != [] {
      assert xs[0] in multiset(ys) && ys[0] in multiset(xs);
      HeadsEqual(xs, ys, key);
      TailItems(xs);
      TailItems(ys);
      SortedUnique(xs[1..], ys[1..], key);
    }
  }

  lemma TailItems<T>(xs: seq<T>)
    requires xs != []
    ensures multiset(xs[1..]) == multiset(xs) - multiset{xs[0]}
  {
    assert xs == [xs[0]] + xs[1..];
  }

  /** The order the items came in does not matter. */
  lemma SortIgnoresOrder<T>(xs: seq<T>, ys: seq<T>, key: T -> seq<string>)
    requires multiset(xs) == multiset(ys) && DistinctKeys(xs, key) && DistinctKeys(ys, key)
    ensures SortBy(xs, key) == SortBy(ys, key)
  {
    SortSorted(xs, key);
    SortSorted(ys, key);
    SortedUnique(SortBy(xs, key), SortBy(ys, key), key);
  }
}
