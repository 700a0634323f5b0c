/** The Merkle tree that a batch of documents is folded into: a stack of perfect subtrees,
    the tree it stands for, and what the root says about the leaves. */
module Merkle {

  /** A hash function, as a function from byte strings to byte strings. */
  type Hash = string -> string

  const DIGEST_LENGTH := 32

  ghost predicate FixedLength(h: Hash) {
    forall x :: |h(x)| == DIGEST_LENGTH && IsBytes(h(x))
  }

  predicate IsBytes(s: string) {
    forall i :: 0 <= i < |s| ==> s[i] as int < 256
  }

  /** What is hashed for a leaf and for an inner node: the first byte tells them apart. */
  function LeafInput(data: string): string {
    [0 as char] + data
  }

  function NodeInput(left: string, right: string): string {
    [1 as char] + left + right
  }

  function Pow2(e: nat): (p: nat)
    ensures p > 0
  {
    if e == 0 then 1 else 2 * Pow2(e - 1)
  }

  /** The first of k, 2k, 4k, ... that reaches half of n. */
  function HalfOrMore(k: nat, n: nat): (r: nat)
    requires 0 < k < n
    ensures k <= r < n <= 2 * r
    decreases n - k
  {
    if 2 * k >= n then k else HalfOrMore(2 * k, n)
  }

  /** The largest power of two below n: how many leaves the left subtree of n leaves has. */
  function LeftSize(n: nat): (k: nat)
    requires n >= 2
    ensures 0 < k < n <= 2 * k
  {
    HalfOrMore(1, n)
  }

  /** The root by recursion on the leaves: the definition the stack is compared with. */
  function Root(h: Hash, leaves: seq<string>): string
    requires leaves != []
    decreases |leaves|
  {
    if |leaves| == 1 then h(LeafInput(leaves[0]))
    else
      var k := LeftSize(|leaves|);
      h(NodeInput(Root(h, leaves[..k]), Root(h, leaves[k..])))
  }

  // ---------------------------------------------------------------- the stack

  /** The subtrees of a tree, the smallest first. */
  datatype Stack = Empty | SubTree(next: Stack, height: nat, sum: string)

  /** The leaves cut into the runs that the subtrees stand for, the last run in front. */
  datatype Runs = NoRun | Run(before: Runs, last: seq<string>) {
    ghost function Leaves(): seq<string> {
      if NoRun? then [] else before.Leaves() + last
    }
  }

  /** Each subtree is perfect and holds the root of its run. */
  ghost predicate Represents(h: Hash, s: Stack, runs: Runs) {
    match (s, runs)
    case (Empty, NoRun) => true
    case (SubTree(next, height, sum), Run(before, last)) =>
      |last| == Pow2(height) && sum == Root(h, last) && Represents(h, next, before)
    case _ => false
  }

  ghost function Size(s: Stack): nat {
    if s.Empty? then 0 else 1 + Size(s.next)
  }

  /** From head to tail the heights increase. */
  ghost predicate Ordered(s: Stack) {
    s.SubTree? ==> (s.next.SubTree? ==> s.height < s.next.height) && Ordered(s.next)
  }

  lemma {:induction false} Pow2Increases(d: nat, e: nat)
    requires d < e
    ensures 2 * Pow2(d) <= Pow2(e)
    decreases e
  {
    if d < e - 1 { Pow2Increases(d, e - 1); }
  }

  lemma {:induction false} HalfOrMoreIs(i: nat, e: nat, n: nat)
    requires i <= e && Pow2(i) < n && Pow2(e) < n <= 2 * Pow2(e)
    ensures HalfOrMore(Pow2(i), n) == Pow2(e)
    decreases e - i
  {
    if i < e {
      Pow2Increases(i, e);
      assert Pow2(i + 1) == 2 * Pow2(i);
      HalfOrMoreIs(i + 1, e, n);
    }
  }

  /** Joining the roots of a run of 2^e leaves and of a run of at most as many gives the root of both. */
  lemma RootOfJoin(h: Hash, left: seq<string>, right: seq<string>, e: nat)
    requires |left| == Pow2(e) && 0 < |right| <= |left|
    ensures Root(h, left + right) == h(NodeInput(Root(h, left), Root(h, right)))
  {
    var all := left + right;
    Pow2AtLeastOne(e);
    HalfOrMoreIs(0, e, |all|);
    assert all[..|left|] == left && all[|left|..] == right;
  }

  lemma Pow2AtLeastOne(e: nat)
    ensures Pow2(0) <= Pow2(e)
  {
    if e > 0 { Pow2Increases(0, e); }
  }

  function Join(h: Hash, left: Stack, right: Stack): Stack
    requires left.SubTree? && right.SubTree?
  {
    SubTree(left.next, left.height + 1, h(NodeInput(left.sum, right.sum)))
  }

  lemma JoinShrinks(h: Hash, s: Stack)
    requires s.SubTree? && s.next.SubTree?
    ensures Size(Join(h, s.next, s)) < Size(s)
  {
  }

  lemma {:induction false} JoinRepresents(h: Hash, s: Stack, runs: Runs)
    requires s.SubTree? && s.next.SubTree? && s.height == s.next.height && Represents(h, s, runs)
    ensures runs.Run? && runs.before.Run?
    ensures var joined := Run(runs.before.before, runs.before.last + runs.last);
            Represents(h, Join(h, s.next, s), joined) && joined.Leaves() == runs.Leaves()
  {
    var left, right := runs.before.last, runs.last;
    RootOfJoin(h, left, right, s.height);
    assert Pow2(s.height + 1) == 2 * Pow2(s.height);
    assert runs.before.before.Leaves() + (left + right) == runs.before.before.Leaves() + left + right;
  }

  /** One step of collapsing the stack from its small end: `sum` is the root of the leaves `done` of the
      subtrees already joined, which need not be perfect; `s` are the taller ones. */
  lemma {:induction false} CollapseStep(h: Hash, s: Stack, runs: Runs, sum: string, done: seq<string>)
    requires s.SubTree? && Represents(h, s, runs) && Ordered(s)
    requires done != [] && sum == Root(h, done) && |done| <= Pow2(s.height)
    ensures runs.Run?
    ensures h(NodeInput(s.sum, sum)) == Root(h, runs.last + done) && Represents(h, s.next, runs.before)
    ensures runs.before.Leaves() + (runs.last + done) == runs.Leaves() + done
    ensures s.next.SubTree? ==> |runs.last + done| <= Pow2(s.next.height)
  {
    RootOfJoin(h, runs.last, done, s.height);
    if s.next.SubTree? { Pow2Increases(s.height, s.next.height); }
  }

  class Tree {
    var head: Stack
    const hash: Hash
    ghost var runs: Runs

    ghost predicate Valid()
      reads this
    {
      Represents(hash, head, runs) && Ordered(head)
    }

    /** The data pushed so far. */
    ghost function Leaves(): seq<string>
      reads this
    {
      runs.Leaves()
    }

    constructor (h: Hash)
      ensures Valid() && Leaves() == [] && hash == h
    {
      head, hash, runs := Empty, h, NoRun;
    }

    method Push(data: string)
      requires Valid()
      modifies this
      ensures Valid() && Leaves() == old(Leaves()) + [data]
    {
      runs := Run(runs, [data]);
      head := SubTree(head, 0, hash(LeafInput(data)));
      while head.next.SubTree? && head.height == head.next.height
        invariant head.SubTree? && Represents(hash, head, runs) && Ordered(head.next)
        invariant head.next.SubTree? ==> head.height <= head.next.height
        invariant runs.Leaves() == old(Leaves()) + [data]
        decreases Size(head)
      {
        JoinRepresents(hash, head, runs);
        JoinShrinks(hash, head);
        head, runs := Join(hash, head.next, head), Run(runs.before.before, runs.before.last + runs.last);
      }
    }

    /** Hashes the subtrees together from the smallest to the tallest, the taller one on the left. */
    method RootSum() returns (r: string)
      requires Valid()
      ensures r == if Leaves() == [] then "" else Root(hash, Leaves())
      ensures Leaves() != [] ==> r == TopOf(hash, LeafRow(hash, Leaves()))
    {
      if head.Empty? {
        return "";
      }
      var current := head;
      ghost var below, done := runs.before, runs.last;
      if head.next.SubTree? { Pow2Increases(head.height, head.next.height); }
      while current.next.SubTree?
        invariant current.SubTree? && done != [] && current.sum == Root(hash, done)
        invariant Represents(hash, current.next, below) && Ordered(current.next)
        invariant below.Leaves() + done == runs.Leaves()
        invariant current.next.SubTree? ==> |done| <= Pow2(current.next.height)
        decreases Size(current)
      {
        CollapseStep(hash, current.next, below, current.sum, done);
        JoinShrinks(hash, current);
        current := Join(hash, current.next, current);
        below, done := below.before, below.last + done;
      }
      assert below.NoRun? && [] + done == done;
      r := current.sum;
      RootIsTop(hash, Leaves());
    }
  }

  // ---------------------------------------------------------------- level by level

  /** The row above: each two neighbours are hashed together behind a byte 1, the left one first; a last one without
      a neighbour goes up as it is. */
  function RowAbove(h: Hash, row: seq<string>): seq<string> {
    seq((|row| + 1) / 2, i requires 0 <= i < (|row| + 1) / 2 =>
      if 2 * i + 1 < |row| then h([1 as char] + row[2*i] + row[2*i+1]) else row[2*i])
  }

  function TopOf(h: Hash, row: seq<string>): string
    requires row != []
    decreases |row|
  {
    if |row| == 1 then row[0] else TopOf(h, RowAbove(h, row))
  }

  /** The lowest row: the hash of each leaf behind a byte 0. */
  function LeafRow(h: Hash, leaves: seq<string>): seq<string> {
    seq(|leaves|, i requires 0 <= i < |leaves| => h([0 as char] + leaves[i]))
  }

  /** The recursion of `Root`, on a row. */
  function Fold(h: Hash, row: seq<string>): string
    requires row != []
    decreases |row|
  {
    if |row| == 1 then row[0]
    else
      var k := LeftSize(|row|);
      h(NodeInput(Fold(h, row[..k]), Fold(h, row[k..])))
  }

  lemma {:induction false} RootIsFold(h: Hash, leaves: seq<string>)
    requires leaves != []
    ensures Root(h, leaves) == Fold(h, LeafRow(h, leaves))
    decreases |leaves|
  {
    if |leaves| > 1 {
      var k, row := LeftSize(|leaves|), LeafRow(h, leaves);
      RootIsFold(h, leaves[..k]);
      RootIsFold(h, leaves[k..]);
      assert row[..k] == LeafRow(h, leaves[..k]) && row[k..] == LeafRow(h, leaves[k..]);
    }
  }

  lemma {:induction false} HalfOfDouble(k: nat, n: nat)
    requires 0 < k < (n + 1) / 2
    ensures 2 * k < n && HalfOrMore(2 * k, n) == 2 * HalfOrMore(k, (n + 1) / 2)
    decreases n - k
  {
    if 2 * k < (n + 1) / 2 { HalfOfDouble(2 * k, n); }
  }

  lemma RowAboveSplits(h: Hash, row: seq<string>, k: nat)
    requires 2 * k <= |row|
    ensures RowAbove(h, row) == RowAbove(h, row[..2*k]) + RowAbove(h, row[2*k..])
  {
    var lower, upper := RowAbove(h, row[..2*k]), RowAbove(h, row[2*k..]);
    assert |lower| == k && |upper| == (|row| + 1) / 2 - k;
    forall i | 0 <= i < (|row| + 1) / 2 ensures RowAbove(h, row)[i] == (lower + upper)[i] {
      if i < k {
        assert row[..2*k][2*i] == row[2*i] && row[..2*k][2*i+1] == row[2*i+1];
      } else {
        assert row[2*k..][2*(i-k)] == row[2*i];
      }
    }
  }

  lemma {:induction false} FoldOfRowAbove(h: Hash, row: seq<string>)
    requires |row| >= 2
    ensures Fold(h, row) == Fold(h, RowAbove(h, row))
    decreases |row|
  {
    if |row| == 2 {
      TwoFold(h, row);
    } else {
      HalfOfDouble(1, |row|);
      FoldOfParts(h, row, LeftSize((|row| + 1) / 2));
    }
  }

  lemma TwoFold(h: Hash, row: seq<string>)
    requires |row| == 2
    ensures Fold(h, row) == h(NodeInput(row[0], row[1])) && RowAbove(h, row) == [h(NodeInput(row[0], row[1]))]
  {
    assert LeftSize(2) == 1 && row[..1] == [row[0]] && row[1..] == [row[1]];
  }

  lemma {:induction false} FoldOpens(h: Hash, row: seq<string>, k: nat)
    requires |row| >= 2 && k == LeftSize(|row|)
    ensures Fold(h, row) == h(NodeInput(Fold(h, row[..k]), Fold(h, row[k..])))
  {
  }

  lemma RowAboveParts(h: Hash, row: seq<string>, k: nat)
    requires 2 * k <= |row|
    ensures RowAbove(h, row)[..k] == RowAbove(h, row[..2*k]) && RowAbove(h, row)[k..] == RowAbove(h, row[2*k..])
  {
    RowAboveSplits(h, row, k);
  }

  lemma {:induction false} FoldOfParts(h: Hash, row: seq<string>, k: nat)
    requires |row| > 2 && 2 * k == LeftSize(|row|) && k == LeftSize((|row| + 1) / 2)
    ensures Fold(h, row) == Fold(h, RowAbove(h, row))
    decreases |row|, 0
  {
    RowAboveParts(h, row, k);
    FoldOpens(h, row, 2 * k);
    FoldOpens(h, RowAbove(h, row), k);
    FoldOfRowAbove(h, row[..2*k]);
    if |row[2*k..]| > 1 { FoldOfRowAbove(h, row[2*k..]); }
  }

  lemma {:induction false} FoldIsTop(h: Hash, row: seq<string>)
    requires row != []
    ensures Fold(h, row) == TopOf(h, row)
    decreases |row|
  {
    if |row| > 1 {
      FoldOfRowAbove(h, row);
      FoldIsTop(h, RowAbove(h, row));
    }
  }

  /** The root can as well be computed from the bottom, level by level. */
  lemma RootIsTop(h: Hash, leaves: seq<string>)
    requires leaves != []
    ensures Root(h, leaves) == TopOf(h, LeafRow(h, leaves))
  {
    RootIsFold(h, leaves);
    FoldIsTop(h, LeafRow(h, leaves));
  }

  // ---------------------------------------------------------------- what a root says

  /** Every string hashed on the way to a root. */
  ghost function Inputs(h: Hash, leaves: seq<string>): set<string>
    requires leaves != []
    decreases |leaves|
  {
    if |leaves| == 1 then {LeafInput(leaves[0])}
    else
      var k := LeftSize(|leaves|);
      {NodeInput(Root(h, leaves[..k]), Root(h, leaves[k..]))}
      + Inputs(h, leaves[..k]) + Inputs(h, leaves[k..])
  }

  ghost predicate CollisionFree(h: Hash, inputs: set<string>) {
    forall x, y :: x in inputs && y in inputs && h(x) == h(y) ==> x == y
  }

  lemma RootIsHashed(h: Hash, leaves: seq<string>)
    requires leaves != []
    ensures exists x :: x in Inputs(h, leaves) && Root(h, leaves) == h(x)
  {
    if |leaves| == 1 {
      assert LeafInput(leaves[0]) in Inputs(h, leaves);
    } else {
      var k := LeftSize(|leaves|);
      assert NodeInput(Root(h, leaves[..k]), Root(h, leaves[k..])) in Inputs(h, leaves);
    }
  }

  lemma NodeInputInjective(a: string, b: string, c: string, d: string)
    requires |a| == |c| && NodeInput(a, b) == NodeInput(c, d)
    ensures a == c && b == d
  {
    assert a == NodeInput(a, b)[1..|a|+1] && c == NodeInput(c, d)[1..|c|+1];
    assert b == NodeInput(a, b)[|a|+1..] && d == NodeInput(c, d)[|c|+1..];
  }

  /** Two leaf sequences of whatever lengths have one root only if they are the same,
      unless two of the strings actually hashed for them collide. */
  lemma {:induction false} RootDeterminesLeaves(h: Hash, a: seq<string>, b: seq<string>)
    requires FixedLength(h) && a != [] && b != []
    requires CollisionFree(h, Inputs(h, a) + Inputs(h, b))
    requires Root(h, a) == Root(h, b)
    ensures a == b
    decreases |a|
  {
    if |a| == 1 && |b| == 1 {
      assert LeafInput(a[0]) in Inputs(h, a) && LeafInput(b[0]) in Inputs(h, b);
      assert a[0] == LeafInput(a[0])[1..] && b[0] == LeafInput(b[0])[1..];
      assert a == [a[0]] && b == [b[0]];
    } else if |a| > 1 && |b| > 1 {
      var j, k := LeftSize(|a|), LeftSize(|b|);
      SubtreesAgree(h, a, b);
      SubtreesCollisionFree(h, a, b);
      RootDeterminesLeaves(h, a[..j], b[..k]);
      RootDeterminesLeaves(h, a[j..], b[k..]);
      SameHalves(a, j, b, k);
    } else {
      LeafIsNotNode(h, a, b);
    }
  }

  lemma SameHalves(a: seq<string>, j: nat, b: seq<string>, k: nat)
    requires j <= |a| && k <= |b| && a[..j] == b[..k] && a[j..] == b[k..]
    ensures a == b
  {
    assert a == a[..j] + a[j..] && b == b[..k] + b[k..];
  }

  lemma SubtreesCollisionFree(h: Hash, a: seq<string>, b: seq<string>)
    requires |a| > 1 && |b| > 1 && CollisionFree(h, Inputs(h, a) + Inputs(h, b))
    ensures var j, k := LeftSize(|a|), LeftSize(|b|);
            && CollisionFree(h, Inputs(h, a[..j]) + Inputs(h, b[..k]))
            && CollisionFree(h, Inputs(h, a[j..]) + Inputs(h, b[k..]))
  {
    var j, k := LeftSize(|a|), LeftSize(|b|);
    InputsOfSubtrees(h, a);
    InputsOfSubtrees(h, b);
    CollisionFreeWithin(h, Inputs(h, a[..j]) + Inputs(h, b[..k]), Inputs(h, a) + Inputs(h, b));
    CollisionFreeWithin(h, Inputs(h, a[j..]) + Inputs(h, b[k..]), Inputs(h, a) + Inputs(h, b));
  }

  lemma CollisionFreeWithin(h: Hash, part: set<string>, all: set<string>)
    requires part <= all && CollisionFree(h, all)
    ensures CollisionFree(h, part)
  {
  }

  lemma InputsOfSubtrees(h: Hash, a: seq<string>)
    requires |a| > 1
    ensures var k := LeftSize(|a|); Inputs(h, a[..k]) <= Inputs(h, a) && Inputs(h, a[k..]) <= Inputs(h, a)
  {
  }

  lemma SubtreesAgree(h: Hash, a: seq<string>, b: seq<string>)
    requires FixedLength(h) && |a| > 1 && |b| > 1
    requires CollisionFree(h, Inputs(h, a) + Inputs(h, b))
    requires Root(h, a) == Root(h, b)
    ensures var j, k := LeftSize(|a|), LeftSize(|b|);
            Root(h, a[..j]) == Root(h, b[..k]) && Root(h, a[j..]) == Root(h, b[k..])
  {
    var j, k := LeftSize(|a|), LeftSize(|b|);
    var x := NodeInput(Root(h, a[..j]), Root(h, a[j..]));
    var y := NodeInput(Root(h, b[..k]), Root(h, b[k..]));
    assert x in Inputs(h, a) && y in Inputs(h, b);
    RootLength(h, a[..j]);
    RootLength(h, b[..k]);
    NodeInputInjective(Root(h, a[..j]), Root(h, a[j..]), Root(h, b[..k]), Root(h, b[k..]));
  }

  lemma LeafIsNotNode(h: Hash, a: seq<string>, b: seq<string>)
    requires a != [] && b != [] && (|a| == 1) != (|b| == 1)
    requires CollisionFree(h, Inputs(h, a) + Inputs(h, b))
    ensures Root(h, a) != Root(h, b)
  {
    var leaf, tree := if |a| == 1 then a else b, if |a| == 1 then b else a;
    var k := LeftSize(|tree|);
    var x, y := LeafInput(leaf[0]), NodeInput(Root(h, tree[..k]), Root(h, tree[k..]));
    assert x in Inputs(h, leaf) && y in Inputs(h, tree) && x[0] != y[0];
  }

  lemma RootLength(h: Hash, leaves: seq<string>)
    requires FixedLength(h) && leaves != []
    ensures |Root(h, leaves)| == DIGEST_LENGTH && IsBytes(Root(h, leaves))
  {
    RootIsHashed(h, leaves);
  }
}
