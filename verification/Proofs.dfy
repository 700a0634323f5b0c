/** `formatDocs`: from a batch of documents to the hexadecimal root that is registered for it. */
module Proofs {
  import opened Lexicographic
  import opened Merkle
  import opened Documents

  function HexChar(n: nat): char
    requires n < 16
  {
    "0123456789abcdef"[n]
  }

  /** `%x` of a byte string. */
  function Hex(s: string): string {
    if s == [] then []
    else [HexChar(s[0] as int / 16 % 16), HexChar(s[0] as int % 16)] + Hex(s[1..])
  }

  /** The value of a lower-case hexadecimal digit. */
  function DigitValue(c: char): int {
    if '0' <= c <= '9' then c as int - '0' as int else if 'a' <= c <= 'f' then c as int - 'a' as int + 10 else -1
  }

  /** Byte `i` of `s` stands in two digits of `hex`, the first of which counts sixteen times. */
  ghost predicate HexByte(hex: string, s: string, i: nat)
    requires i < |s| && |hex| == 2 * |s|
  {
    var high, low := DigitValue(hex[2*i]), DigitValue(hex[2*i+1]);
    0 <= high && 0 <= low && 16 * high + low == s[i] as int
  }

  /** `hex` is `s` byte by byte. */
  ghost predicate IsHexOf(hex: string, s: string) {
    |hex| == 2 * |s| && forall i :: 0 <= i < |s| ==> HexByte(hex, s, i)
  }

  lemma HexCharValue(n: nat)
    requires n < 16
    ensures DigitValue(HexChar(n)) == n
  {
  }

  lemma {:induction false} HexIs(s: string)
    requires IsBytes(s)
    ensures IsHexOf(Hex(s), s)
  {
    if s != [] {
      var first := s[0] as int;
      HexCharValue(first / 16 % 16);
      HexCharValue(first % 16);
      HexIs(s[1..]);
      HexOfMore(Hex(s)[0], Hex(s)[1], Hex(s[1..]), s);
    }
  }

  lemma HexOfMore(high: char, low: char, rest: string, s: string)
    requires s != [] && IsHexOf(rest, s[1..]) && 0 <= DigitValue(high) && 0 <= DigitValue(low)
    requires 16 * DigitValue(high) + DigitValue(low) == s[0] as int
    ensures IsHexOf([high, low] + rest, s)
  {
    var hex := [high, low] + rest;
    forall i | 0 <= i < |s| ensures HexByte(hex, s, i) {
      if i > 0 {
        assert HexByte(rest, s[1..], i - 1);
        assert hex[2*i] == rest[2*(i-1)] && hex[2*i+1] == rest[2*(i-1)+1] && s[i] == s[1..][i-1];
      }
    }
  }

  lemma HexInjective(a: string, b: string)
    requires IsBytes(a) && IsBytes(b) && Hex(a) == Hex(b)
    ensures a == b
  {
    HexIs(a);
    HexIs(b);
    forall i | 0 <= i < |a| ensures a[i] == b[i] {
      assert HexByte(Hex(a), a, i) && HexByte(Hex(b), b, i);
    }
  }

  function Cores(docs: seq<Document>): seq<Core> {
    seq(|docs|, i requires 0 <= i < |docs| => CoreOf(docs[i]))
  }

  function LeavesOfCores(cores: seq<Core>): seq<string> {
    seq(|cores|, i requires 0 <= i < |cores| => Leaf(cores[i]))
  }

  function Leaves(docs: seq<Document>): seq<string> {
    LeavesOfCores(Cores(docs))
  }

  /** What the chain is asked to register for a batch, and asked about when the batch is verified. */
  function RootOf(h: Hash, docs: seq<Document>): string {
    if docs == [] then "" else Hex(Root(h, SortedOf(Leaves(docs))))
  }

  /** Fills an array with the leaves and sorts it in place. */
  method SortedLeaves(docs: seq<Document>) returns (ds: array<string>)
    ensures fresh(ds) && ds[..] == SortedOf(Leaves(docs))
  {
    ds := new string[|docs|];
    ghost var leaves := Leaves(docs);
    for idx := 0 to |docs|
      invariant ds[..idx] == leaves[..idx]
    {
      ds[idx] := Leaf(CoreOf(docs[idx]));
    }
    assert ds[..] == ds[..|docs|] == leaves[..|docs|] == leaves;
    SortStrings(ds);
  }

  /** Pushes the leaves into a new tree, one by one. */
  method PushAll(h: Hash, ds: array<string>) returns (tree: Tree)
    ensures fresh(tree) && tree.Valid() && tree.hash == h && tree.Leaves() == ds[..]
  {
    tree := new Tree(h);
    for i := 0 to ds.Length
      invariant fresh(tree) && tree.Valid() && tree.hash == h && tree.Leaves() == ds[..i]
    {
      tree.Push(ds[i]);
    }
  }

  /** Fills, sorts and folds, and writes the root in hexadecimal. */
  method FormatDocs(h: Hash, docs: seq<Document>) returns (r: string)
    ensures r == RootOf(h, docs)
  {
    if |docs| == 0 {
      return "";
    }
    var ds := SortedLeaves(docs);
    assert |multiset(ds[..])| == |docs|;
    var tree := PushAll(h, ds);
    var sum := tree.RootSum();
    r := Hex(sum);
  }

  // ---------------------------------------------------------------- in other words

  /** The strings that `formatDocs` makes of documents. */
  function Strings(docs: seq<Document>): seq<string> {
    seq(|docs|, i requires 0 <= i < |docs| =>
      docs[i].id + Dec(docs[i].submitTime) + Dec(docs[i].waitDuration) + docs[i].metadata)
  }

  lemma LeavesAreStrings(docs: seq<Document>)
    ensures Leaves(docs) == Strings(docs)
  {
    forall i | 0 <= i < |docs| ensures Leaves(docs)[i] == Strings(docs)[i] {
      assert Leaves(docs)[i] == Leaf(CoreOf(docs[i]));
    }
  }

  /** The root of a batch, without the order, the tree and the hexadecimals of the model: its strings, of which each
      that comes later is a continuation or greater at the first difference, are hashed and folded level by level, and
      what comes out on top is written byte by byte. */
  lemma RootInWords(h: Hash, docs: seq<Document>) returns (ds: seq<string>)
    requires docs != [] && FixedLength(h)
    ensures multiset(ds) == multiset(Strings(docs)) && ds != []
    ensures forall i, j :: 0 <= i < j < |ds| ==>
              ds[i] <= ds[j]
              || exists k :: 0 <= k < |ds[i]| && k < |ds[j]| && ds[i][..k] == ds[j][..k] && ds[i][k] < ds[j][k]
    ensures IsHexOf(RootOf(h, docs), TopOf(h, LeafRow(h, ds)))
  {
    ds := SortedOf(Leaves(docs));
    LeavesAreStrings(docs);
    assert |multiset(ds)| == |docs|;
    forall i, j | 0 <= i < j < |ds|
      ensures ds[i] <= ds[j]
           || exists k :: 0 <= k < |ds[i]| && k < |ds[j]| && ds[i][..k] == ds[j][..k] && ds[i][k] < ds[j][k]
    {
      LeqIs(ds[i], ds[j]);
    }
    RootIsTop(h, ds);
    RootLength(h, ds);
    HexIs(Root(h, ds));
  }

  // ---------------------------------------------------------------- canonical

  lemma {:induction false} LeavesOfPermutation(a: seq<Core>, b: seq<Core>)
    requires multiset(a) == multiset(b)
    ensures multiset(LeavesOfCores(a)) == multiset(LeavesOfCores(b))
  {
    if a == [] {
      assert |multiset(b)| == 0;
    } else {
      assert a[0] in multiset(b) by { assert a[0] in multiset(a); }
      var j :| 0 <= j < |b| && b[j] == a[0];
      LeavesWithout(a, 0);
      LeavesWithout(b, j);
      LeavesOfPermutation(Without(a, 0), Without(b, j));
    }
  }

  function Without<T>(s: seq<T>, i: nat): seq<T>
    requires i < |s|
  {
    s[..i] + s[i+1..]
  }

  lemma LeavesWithout(a: seq<Core>, i: nat)
    requires i < |a|
    ensures multiset(Without(a, i)) == multiset(a) - multiset{a[i]}
    ensures multiset(LeavesOfCores(a)) == multiset(LeavesOfCores(Without(a, i))) + multiset{Leaf(a[i])}
  {
    var before, one, after := a[..i], [a[i]], a[i+1..];
    assert a == before + one + after;
    LeavesOfConcat(before + one, after);
    LeavesOfConcat(before, one);
    LeavesOfConcat(before, after);
    assert LeavesOfCores(one) == [Leaf(a[i])];
  }

  lemma LeavesOfConcat(a: seq<Core>, b: seq<Core>)
    ensures LeavesOfCores(a + b) == LeavesOfCores(a) + LeavesOfCores(b)
  {
  }

  /** The root does not depend on the order of the batch, nor on any field but those in the leaf. */
  lemma RootIsCanonical(h: Hash, a: seq<Document>, b: seq<Document>)
    requires multiset(Cores(a)) == multiset(Cores(b))
    ensures RootOf(h, a) == RootOf(h, b)
  {
    LeavesOfPermutation(Cores(a), Cores(b));
    SameLeavesSameRoot(h, a, b);
  }

  lemma SameLeavesSameRoot(h: Hash, a: seq<Document>, b: seq<Document>)
    requires multiset(Leaves(a)) == multiset(Leaves(b))
    ensures RootOf(h, a) == RootOf(h, b)
  {
    assert |multiset(Leaves(a))| == |a| && |multiset(Leaves(b))| == |b|;
    SortedIsUnique(SortedOf(Leaves(a)), SortedOf(Leaves(b)));
  }

  // ---------------------------------------------------------------- what the root says about the batch

  ghost function HashedFor(h: Hash, docs: seq<Document>): set<string> {
    if docs == [] then {} else
    assert |multiset(SortedOf(Leaves(docs)))| == |docs|;
    Inputs(h, SortedOf(Leaves(docs)))
  }

  /** No two of the strings hashed for these two batches collide. */
  ghost predicate Separated(h: Hash, a: seq<Document>, b: seq<Document>) {
    CollisionFree(h, HashedFor(h, a) + HashedFor(h, b))
  }

  /** Batches have one root exactly if they have the same leaves, each as often. */
  lemma RootDeterminesBatch(h: Hash, a: seq<Document>, b: seq<Document>)
    requires FixedLength(h) && Separated(h, a, b)
    ensures RootOf(h, a) == RootOf(h, b) <==> multiset(Leaves(a)) == multiset(Leaves(b))
  {
    if RootOf(h, a) == RootOf(h, b) {
      RootOfLength(h, a);
      RootOfLength(h, b);
      if a != [] && b != [] {
        var la, lb := SortedOf(Leaves(a)), SortedOf(Leaves(b));
        assert |multiset(la)| == |a| && |multiset(lb)| == |b|;
        RootLength(h, la);
        RootLength(h, lb);
        HexInjective(Root(h, la), Root(h, lb));
        RootDeterminesLeaves(h, la, lb);
      }
    } else if multiset(Leaves(a)) == multiset(Leaves(b)) {
      SameLeavesSameRoot(h, a, b);
    }
  }

  lemma {:induction false} HexLength(s: string)
    ensures |Hex(s)| == 2 * |s|
  {
    if s != [] { HexLength(s[1..]); }
  }

  lemma RootOfLength(h: Hash, docs: seq<Document>)
    requires FixedLength(h)
    ensures |RootOf(h, docs)| == if docs == [] then 0 else 2 * DIGEST_LENGTH
  {
    if docs != [] {
      var leaves := SortedOf(Leaves(docs));
      assert |multiset(leaves)| == |docs|;
      RootLength(h, leaves);
      HexLength(Root(h, leaves));
    }
  }

  /** Batches that share a root share a document id. */
  lemma CommonRootCommonId(h: Hash, a: seq<Document>, b: seq<Document>)
    requires FixedLength(h) && Separated(h, a, b) && a != []
    requires forall doc :: doc in a || doc in b ==> |doc.id| == ID_LENGTH
    requires RootOf(h, a) == RootOf(h, b)
    ensures exists id :: id in Ids(a) && id in Ids(b)
  {
    RootDeterminesBatch(h, a, b);
    assert Leaves(a)[0] in multiset(Leaves(b));
    var j :| 0 <= j < |b| && Leaves(b)[j] == Leaves(a)[0];
    assert a[0] in a && b[j] in b;
    IdIsLeafPrefix(CoreOf(a[0]), CoreOf(b[j]));
    assert a[0].id in Ids(a) && b[j].id in Ids(b);
  }
}
