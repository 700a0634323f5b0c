/** The order `sort.Strings` sorts by, and sorting.

A Go string is a `string` here, one `char` for each byte, so that comparing chars is comparing bytes. */
module Lexicographic {

  predicate Leq(a: string, b: string) {
    a == [] || (b != [] && (a[0] < b[0] || (a[0] == b[0] && Leq(a[1..], b[1..]))))
  }

  /** `a` is the beginning of `b`, or at the first place where they differ it has the smaller char. */
  lemma {:induction false} LeqIs(a: string, b: string)
    ensures Leq(a, b) <==> a <= b || exists k :: 0 <= k < |a| && k < |b| && a[..k] == b[..k] && a[k] < b[k]
  {
    if a != [] && b != [] {
      LeqIs(a[1..], b[1..]);
      if a[0] == b[0] {
        SameFirst(a, b);
      } else if a[0] < b[0] {
        assert a[..0] == b[..0];
      } else {
        assert forall k :: 0 < k < |a| && k < |b| ==> a[..k][0] != b[..k][0];
      }
    }
  }

  lemma SameFirst(a: string, b: string)
    requires a != [] && b != [] && a[0] == b[0]
    ensures a <= b <==> a[1..] <= b[1..]
    ensures (exists k :: 0 <= k < |a| && k < |b| && a[..k] == b[..k] && a[k] < b[k])
       <==> exists k :: 0 <= k < |a[1..]| && k < |b[1..]| && a[1..][..k] == b[1..][..k] && a[1..][k] < b[1..][k]
  {
    var x, y := a[1..], b[1..];
    assert a == [a[0]] + x && b == [b[0]] + y;
    if k :| 0 <= k < |x| && k < |y| && x[..k] == y[..k] && x[k] < y[k] {
      assert a[..k+1] == [a[0]] + x[..k] == b[..k+1] && a[k+1] < b[k+1];
    }
    if k :| 0 <= k < |a| && k < |b| && a[..k] == b[..k] && a[k] < b[k] {
      assert x[..k-1] == a[..k][1..] == b[..k][1..] == y[..k-1] && x[k-1] < y[k-1];
    }
  }

  lemma {:induction false} Total(a: string, b: string)
    ensures Leq(a, b) || Leq(b, a)
  {
    if a != [] && b != [] {
      Total(a[1..], b[1..]);
    }
  }

  lemma {:induction false} Antisymmetric(a: string, b: string)
    requires Leq(a, b) && Leq(b, a)
    ensures a == b
  {
    if a != [] {
      Antisymmetric(a[1..], b[1..]);
      assert a == [a[0]] + a[1..] && b == [b[0]] + b[1..];
    }
  }

  lemma {:induction false} Transitive(a: string, b: string, c: string)
    requires Leq(a, b) && Leq(b, c)
    ensures Leq(a, c)
  {
    if a != [] && a[0] == b[0] == c[0] {
      Transitive(a[1..], b[1..], c[1..]);
    }
  }

  predicate Sorted(s: seq<string>) {
    forall i, j :: 0 <= i < j < |s| ==> Leq(s[i], s[j])
  }

  /** A multiset of strings has one sorted arrangement, so it does not matter which algorithm sorts. */
  lemma {:induction false} SortedIsUnique(a: seq<string>, b: seq<string>)
    requires Sorted(a) && Sorted(b) && multiset(a) == multiset(b)
    ensures a == b
  {
    if a == [] {
      assert |multiset(b)| == 0;
    } else {
      assert a[0] in multiset(b) && |multiset(a)| == |multiset(b)|;
      assert b[0] in multiset(a);
      Total(a[0], a[0]);
      Total(b[0], b[0]);
      Antisymmetric(a[0], b[0]);
      assert a == [a[0]] + a[1..] && b == [b[0]] + b[1..];
      assert multiset(a[1..]) == multiset(a) - multiset{a[0]};
      assert multiset(b[1..]) == multiset(b) - multiset{b[0]};
      SortedIsUnique(a[1..], b[1..]);
    }
  }

  lemma SmallestFirst(x: string, s: seq<string>)
    requires Sorted(s) && (s != [] ==> Leq(x, s[0]))
    ensures Sorted([x] + s)
  {
    forall j | 0 < j < |s| ensures Leq(x, s[j]) { Transitive(x, s[0], s[j]); }
  }

  lemma FirstStays(x: string, s: seq<string>, r: seq<string>)
    requires s != [] && Sorted(s) && !Leq(x, s[0]) && Sorted(r) && multiset(r) == multiset(s[1..]) + multiset{x}
    ensures Sorted([s[0]] + r) && multiset([s[0]] + r) == multiset(s) + multiset{x}
  {
    Total(x, s[0]);
    assert s == [s[0]] + s[1..];
    forall y | y in r ensures Leq(s[0], y) { assert y in multiset(r); }
  }

  function Insert(x: string, s: seq<string>): (r: seq<string>)
    requires Sorted(s)
    ensures Sorted(r) && multiset(r) == multiset(s) + multiset{x}
  {
    if s == [] then [x]
    else if Leq(x, s[0]) then SmallestFirst(x, s); [x] + s
    else
      var r := Insert(x, s[1..]);
      FirstStays(x, s, r);
      [s[0]] + r
  }

  /** The strings of `s` in order. */
  function SortedOf(s: seq<string>): (r: seq<string>)
    ensures Sorted(r) && multiset(r) == multiset(s)
  {
    if s == [] then []
    else
      assert s == [s[0]] + s[1..];
      Insert(s[0], SortedOf(s[1..]))
  }

  /** Sorted but for the element at `j`, which has still to find its place among `s[..j]`. */
  ghost predicate SortedBut(s: seq<string>, j: nat) {
    forall p, q :: 0 <= p < q < |s| && q != j ==> Leq(s[p], s[q])
  }

  lemma SwapKeepsSortedBut(s: seq<string>, j: nat, t: seq<string>)
    requires 0 < j < |s| && SortedBut(s, j) && !Leq(s[j-1], s[j])
    requires t == s[j-1 := s[j]][j := s[j-1]]
    ensures SortedBut(t, j - 1)
  {
    Total(s[j-1], s[j]);
  }

  lemma SettledIsSorted(s: seq<string>, j: nat)
    requires j < |s| && SortedBut(s, j) && (j > 0 ==> Leq(s[j-1], s[j]))
    ensures Sorted(s)
  {
    forall p | 0 <= p < j ensures Leq(s[p], s[j]) {
      if p < j - 1 { Transitive(s[p], s[j-1], s[j]); }
    }
  }

  /** Of any two places, the later has a continuation of the earlier, or is greater at the first difference. */
  ghost predicate Ascends(s: seq<string>) {
    forall i, j :: 0 <= i < j < |s| ==>
      s[i] <= s[j] || exists k :: 0 <= k < |s[i]| && k < |s[j]| && s[i][..k] == s[j][..k] && s[i][k] < s[j][k]
  }

  lemma SortedAscends(s: seq<string>)
    requires Sorted(s)
    ensures Ascends(s)
  {
    forall i, j | 0 <= i < j < |s|
      ensures s[i] <= s[j]
           || exists k :: 0 <= k < |s[i]| && k < |s[j]| && s[i][..k] == s[j][..k] && s[i][k] < s[j][k]
    {
      LeqIs(s[i], s[j]);
    }
  }

  /** Moves a string to its place among those before it. */
  method Settle(a: array<string>, i: nat)
    requires i < a.Length && Sorted(a[..i])
    modifies a
    ensures Sorted(a[..i+1]) && multiset(a[..]) == multiset(old(a[..]))
  {
    var j := i;
    while j > 0 && !Leq(a[j-1], a[j])
      invariant 0 <= j <= i
      invariant SortedBut(a[..i+1], j)
      invariant multiset(a[..]) == multiset(old(a[..]))
    {
      ghost var s := a[..i+1];
      a[j-1], a[j] := a[j], a[j-1];
      assert a[..i+1] == s[j-1 := s[j]][j := s[j-1]];
      SwapKeepsSortedBut(s, j, a[..i+1]);
      j := j - 1;
    }
    SettledIsSorted(a[..i+1], j);
  }

  /** Sorts in place. Go's own algorithm is another one; by SortedIsUnique it leaves the same array. */
  method SortStrings(a: array<string>)
    modifies a
    ensures a[..] == SortedOf(old(a[..])) && multiset(a[..]) == multiset(old(a[..]))
    ensures Ascends(a[..])
  {
    for i := 0 to a.Length
      invariant Sorted(a[..i])
      invariant multiset(a[..]) == multiset(old(a[..]))
    {
      Settle(a, i);
    }
    assert a[..a.Length] == a[..];
    SortedIsUnique(a[..], SortedOf(old(a[..])));
    SortedAscends(a[..]);
  }
}
