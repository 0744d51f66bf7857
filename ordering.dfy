/** The order of Python `str` values (lexicographic by code point) and `sorted()` of a set of
    names, which the discovery step uses for every list it reports. */
module Ordering {

  /** `a < b` on Python strings: at the first difference the smaller code point wins, and a proper
      prefix comes first. */
  predicate Less(a: string, b: string) {
    if a == [] then b != []
    else if b == [] then false
    else a[0] < b[0] || (a[0] == b[0] && Less(a[1..], b[1..]))
  }

  lemma {:induction false} LessIrreflexive(a: string)
    ensures !Less(a, a)
  {
    if a != [] {
      LessIrreflexive(a[1..]);
    }
  }

  lemma {:induction false} LessAsymmetric(a: string, b: string)
    ensures !(Less(a, b) && Less(b, a))
  {
    if a != [] && b != [] && a[0] == b[0] {
      LessAsymmetric(a[1..], b[1..]);
    }
  }

  lemma {:induction false} LessTransitive(a: string, b: string, c: string)
    requires Less(a, b) && Less(b, c)
    ensures Less(a, c)
  {
    if a != [] && a[0] == b[0] && b[0] == c[0] {
      LessTransitive(a[1..], b[1..], c[1..]);
    }
  }

  /** Any two different strings are ordered one way or the other. */
  lemma {:induction false} LessTotal(a: string, b: string)
    requires a != b
    ensures Less(a, b) || Less(b, a)
  {
    if a != [] && b != [] && a[0] == b[0] {
      assert a == [a[0]] + a[1..] && b == [b[0]] + b[1..];
      LessTotal(a[1..], b[1..]);
    }
  }

  /** m is the smallest element of s. */
  predicate IsLeast(m: string, s: set<string>) {
    m in s && forall x :: x in s && x != m ==> Less(m, x)
  }

  /** Every non-empty finite set of strings has a smallest element. */
  lemma {:induction false} LeastExists(s: set<string>)
    requires s != {}
    ensures exists m :: IsLeast(m, s)
    decreases |s|
  {
    var y :| y in s;
    var rest := s - {y};
    if rest == {} {
      forall x | x in s
        ensures x == y
      {
        assert x !in rest;
      }
      assert IsLeast(y, s);
    } else {
      LeastExists(rest);
      var m :| IsLeast(m, rest);
      if Less(m, y) {
        assert IsLeast(m, s);
      } else {
        LessTotal(m, y);
        forall x | x in s && x != y
          ensures Less(y, x)
        {
          if x != m {
            LessTransitive(y, m, x);
          }
        }
        assert IsLeast(y, s);
      }
    }
  }

  /** The smallest element is unique. */
  lemma LeastUnique(m: string, n: string, s: set<string>)
    requires IsLeast(m, s) && IsLeast(n, s)
    ensures m == n
  {
    if m != n {
      LessAsymmetric(m, n);
    }
  }

  /** The smallest element of a non-empty set. */
  function Least(s: set<string>): (m: string)
    requires s != {}
    ensures IsLeast(m, s)
  {
    LeastExists(s);
    assert forall a, b :: IsLeast(a, s) && IsLeast(b, s) ==> a == b by {
      forall a, b | IsLeast(a, s) && IsLeast(b, s)
        ensures a == b
      {
        LeastUnique(a, b, s);
      }
    }
    var m :| IsLeast(m, s);
    m
  }

  predicate StrictlyAscending(xs: seq<string>) {
    forall i, j :: 0 <= i < j < |xs| ==> Less(xs[i], xs[j])
  }

  /** `sorted(s)`: the elements of s, each once, in ascending order. */
  function SortedList(s: set<string>): (r: seq<string>)
    ensures |r| == |s|
    ensures forall x :: x in r <==> x in s
    ensures StrictlyAscending(r)
    decreases |s|
  {
    if s == {} then []
    else
      var m := Least(s);
      var rest := SortedList(s - {m});
      assert forall x :: x in [m] + rest <==> x in s;
      assert forall j :: 0 <= j < |rest| ==> Less(m, rest[j]);
      [m] + rest
  }

  /** Two strictly ascending lists with the same elements start with the same element. */
  lemma SameHead(xs: seq<string>, ys: seq<string>)
    requires xs != [] && ys != [] && StrictlyAscending(xs) && StrictlyAscending(ys)
    requires forall x :: x in xs <==> x in ys
    ensures xs[0] == ys[0]
  {
    if xs[0] != ys[0] {
      assert xs[0] in ys && ys[0] in xs;
      var i :| 0 < i < |xs| && xs[i] == ys[0];
      var j :| 0 < j < |ys| && ys[j] == xs[0];
      LessAsymmetric(xs[0], ys[0]);
    }
  }

  /** ... and the rest of the two lists again have the same elements. */
  lemma SameTail(xs: seq<string>, ys: seq<string>)
    requires xs != [] && ys != [] && StrictlyAscending(xs) && StrictlyAscending(ys)
    requires forall x :: x in xs <==> x in ys
    requires xs[0] == ys[0]
    ensures StrictlyAscending(xs[1..]) && StrictlyAscending(ys[1..])
    ensures forall x :: x in xs[1..] <==> x in ys[1..]
  {
    forall x | x in xs[1..]
      ensures x in ys[1..]
    {
      var i :| 1 <= i < |xs| && xs[i] == x;
      LessIrreflexive(x);
      assert x in ys && x != ys[0];
    }
    forall x | x in ys[1..]
      ensures x in xs[1..]
    {
      var j :| 1 <= j < |ys| && ys[j] == x;
      LessIrreflexive(x);
      assert x in xs && x != xs[0];
    }
  }

  /** Two lists with the same elements are empty together. */
  lemma SameEmptiness(xs: seq<string>, ys: seq<string>)
    requires forall x :: x in xs <==> x in ys
    ensures xs == [] <==> ys == []
  {
    if xs != [] {
      assert xs[0] in ys;
    }
    if ys != [] {
      assert ys[0] in xs;
    }
  }

  /** A strictly ascending list is determined by its elements. */
  lemma {:induction false} AscendingUnique(xs: seq<string>, ys: seq<string>)
    requires StrictlyAscending(xs) && StrictlyAscending(ys)
    requires forall x :: x in xs <==> x in ys
    ensures xs == ys
    decreases |xs|
  {
    SameEmptiness(xs, ys);
    if xs != [] {
      SameHead(xs, ys);
      SameTail(xs, ys);
      AscendingUnique(xs[1..], ys[1..]);
      assert xs == [xs[0]] + xs[1..] && ys == [ys[0]] + ys[1..];
    }
  }

  /** A strictly ascending list is determined by the set of its elements: the only one is `sorted`. */
  lemma AscendingIsSorted(xs: seq<string>, s: set<string>)
    requires StrictlyAscending(xs)
    requires forall x :: x in xs <==> x in s
    ensures xs == SortedList(s)
  {
    AscendingUnique(xs, SortedList(s));
  }
}
