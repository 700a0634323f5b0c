/** Circular lists as in Go's `container/ring`, and the round-robin balancer that walks one.

A ring is compared with the sequence read from a cursor; the balancer's operations are functions of that sequence. */
module Ring {
  import opened Wrappers

  function Rotate<T>(s: seq<T>, k: nat): seq<T>
    requires k <= |s|
  {
    s[k..] + s[..k]
  }

  lemma RotateOnceMore<T>(s: seq<T>, k: nat)
    requires k < |s|
    ensures Rotate(Rotate(s, k), 1) == Rotate(s, k + 1) && Rotate(s, k)[0] == s[k]
  {
  }

  /** The sequence after a backend has been added to `s`: second in the ring, and the cursor three further on. */
  function Added(s: seq<string>, x: string): seq<string> {
    if s == [] then [x]
    else
      var ring := [s[0], x] + s[1..];
      Rotate(ring, 3 % |ring|)
  }

  /** A new backend comes next if there was one before it, after the next if there were two, and else last but one of
      the old ones; of these the first two have moved behind the others. */
  lemma AddedIs(s: seq<string>, x: string)
    ensures Added(s, x) == if |s| == 0 then [x] else if |s| == 1 then [x, s[0]]
                           else if |s| == 2 then [s[0], x, s[1]] else s[2..] + [s[0], x, s[1]]
  {
    if |s| == 1 {
      AddedToOne(s[0], x);
      assert s == [s[0]];
    } else if |s| == 2 {
      AddedToTwo(s[0], s[1], x);
      assert s == [s[0], s[1]];
    } else if |s| > 2 {
      AddedToMany(s, x);
    }
  }

  lemma AddedToOne(a: string, x: string)
    ensures Added([a], x) == [x, a]
  {
    assert 3 % 2 == 1 && [a][1..] == [];
    assert Rotate([a, x], 1) == [x, a];
  }

  lemma AddedToTwo(a: string, b: string, x: string)
    ensures Added([a, b], x) == [a, x, b]
  {
    assert 3 % 3 == 0 && [a, b][1..] == [b];
    assert Rotate([a, x, b], 0) == [a, x, b];
  }

  lemma AddedToMany(s: seq<string>, x: string)
    requires |s| > 2
    ensures Added(s, x) == s[2..] + [s[0], x, s[1]]
  {
    var ring := [s[0], x] + s[1..];
    assert 3 % |ring| == 3;
    assert ring[..3] == [s[0], x, s[1]] && ring[3..] == s[2..];
  }

  /** The first place where `x` stands, |s| if nowhere. */
  function FirstMatch(s: seq<string>, x: string): (i: nat)
    ensures i <= |s| && (i < |s| ==> s[i] == x) && forall j :: 0 <= j < i ==> s[j] != x
  {
    if s == [] || s[0] == x then 0 else
    var i := FirstMatch(s[1..], x);
    assert forall j :: 1 <= j < 1 + i ==> s[j] == s[1..][j-1];
    1 + i
  }

  /** The sequence after `Remove(x)`: of two or more backends the one after the first match is all that is left,
      and a last backend goes whatever its name. The scan begins behind the cursor. */
  function Removed(s: seq<string>, x: string): seq<string> {
    if |s| <= 1 then []
    else
      var scan := Rotate(s, 1);
      var i := FirstMatch(scan, x);
      if i == |s| then s else [scan[if i + 1 < |s| then i + 1 else 0]]
  }

  lemma RemovedElse(s: seq<string>, x: string)
    ensures |s| <= 1 ==> Removed(s, x) == []
    ensures |s| >= 2 && x !in s ==> Removed(s, x) == s
  {
    if |s| >= 2 && x !in s { FirstMatchIs(s[1..] + s[..1], x, |s|); }
  }

  /** Of two or more backends, if the name stands among those that follow the next one, or is the next one, what is left
      is the one behind the first that has it. */
  lemma RemovedIs(s: seq<string>, x: string, i: nat)
    requires |s| >= 2 && i < |s|
    requires (s[1..] + s[..1])[i] == x && forall j :: 0 <= j < i ==> (s[1..] + s[..1])[j] != x
    ensures Removed(s, x) == [if i + 2 < |s| then s[i+2] else if i + 2 == |s| then s[0] else s[1]]
  {
    FirstMatchIs(s[1..] + s[..1], x, i);
  }

  // ---------------------------------------------------------------- rings of nodes

  class Node {
    var next: Node?
    var prev: Node?
    var value: string

    constructor (value: string)
      ensures next == null && prev == null && this.value == value
    {
      this.value, next, prev := value, null, null;
    }
  }

  ghost predicate Distinct(nodes: seq<Node>) {
    forall i, j :: 0 <= i < j < |nodes| ==> nodes[i] != nodes[j]
  }

  /** The nodes form one circle, in this order. */
  ghost predicate Linked(nodes: seq<Node>)
    reads nodes
  {
    && Distinct(nodes)
    && (forall i :: 0 <= i < |nodes| - 1 ==> nodes[i].next == nodes[i+1] && nodes[i+1].prev == nodes[i])
    && (nodes != [] ==> nodes[|nodes|-1].next == nodes[0] && nodes[0].prev == nodes[|nodes|-1])
  }

  /** A node that was never linked counts as a circle of one. */
  ghost predicate Lone(nodes: seq<Node>)
    reads nodes
  {
    |nodes| == 1 && nodes[0].next == null
  }

  ghost function Values(nodes: seq<Node>): seq<string>
    reads nodes
  {
    seq(|nodes|, i requires 0 <= i < |nodes| reads nodes => nodes[i].value)
  }

  lemma RotatedIsLinked(nodes: seq<Node>, k: nat)
    requires Linked(nodes) && k <= |nodes|
    ensures Linked(Rotate(nodes, k)) && Values(Rotate(nodes, k)) == Rotate(Values(nodes), k)
  {
    var turned, n := Rotate(nodes, k), |nodes|;
    forall i | 0 <= i < n
      ensures turned[i] == nodes[if i + k < n then i + k else i + k - n]
    {
    }
  }

  /** Follows the link of a node, which is linked to itself if it was never linked. */
  method Next(node: Node, ghost nodes: seq<Node>) returns (next: Node)
    requires (Linked(nodes) || Lone(nodes)) && node in nodes
    modifies nodes
    ensures Linked(nodes) && Values(nodes) == old(Values(nodes))
    ensures next == node.next && next in nodes
    ensures old(Linked(nodes)) ==> forall x :: x in nodes ==> unchanged(x)
  {
    if node.next == null {
      node.next, node.prev := node, node;
    }
    ghost var i :| 0 <= i < |nodes| && nodes[i] == node;
    assert i < |nodes| - 1 ==> nodes[i].next == nodes[i+1];
    next := node.next;
  }

  /** Connects r to s and what follows r to what precedes s. */
  method Link(r: Node, s: Node) returns (n: Node)
    requires r.next != null && s.prev != null
    modifies r, s, r.next, s.prev
    ensures n == old(r.next)
    ensures var p := old(s.prev);
            && r.next == (if p == r then n else s) && p.next == n
            && s.prev == (if n == s then p else r) && n.prev == p
    ensures r != old(s.prev) && s != r && s != old(s.prev) ==> s.next == old(s.next)
    ensures n != r && n != old(s.prev) ==> n.next == old(n.next)
    ensures r != s && r != n ==> r.prev == old(r.prev)
    ensures forall x :: x in {r, s, n, old(s.prev)} ==> x.value == old(x.value)
  {
    n := r.next;
    var p := s.prev;
    r.next := s;
    s.prev := r;
    n.prev := p;
    p.next := n;
  }

  method NewRing(n: nat) returns (r: Node?, ghost nodes: seq<Node>)
    ensures |nodes| == n && fresh(nodes) && Linked(nodes)
    ensures r == if n == 0 then null else nodes[0]
  {
    if n == 0 {
      return null, [];
    }
    var first := new Node("");
    r, nodes := first, [first];
    var p := first;
    for i := 1 to n
      invariant |nodes| == i && fresh(nodes) && Distinct(nodes) && nodes[0] == first && nodes[i-1] == p
      invariant forall j :: 0 <= j < i - 1 ==> nodes[j].next == nodes[j+1] && nodes[j+1].prev == nodes[j]
    {
      var node := new Node("");
      node.prev := p;
      p.next := node;
      p := node;
      nodes := nodes + [node];
    }
    p.next := first;
    first.prev := p;
  }

  // ---------------------------------------------------------------- the balancer

  lemma InsertedIsLinked(nodes: seq<Node>, node: Node)
    requires Distinct(nodes) && nodes != [] && node !in nodes
    requires nodes[0].next == node && node.prev == nodes[0]
    requires forall i :: 1 <= i < |nodes| - 1 ==> nodes[i].next == nodes[i+1] && nodes[i+1].prev == nodes[i]
    requires var after := if |nodes| == 1 then nodes[0] else nodes[1]; node.next == after && after.prev == node
    requires |nodes| > 1 ==> nodes[|nodes|-1].next == nodes[0] && nodes[0].prev == nodes[|nodes|-1]
    ensures Linked([nodes[0], node] + nodes[1..])
    ensures Values([nodes[0], node] + nodes[1..]) == [nodes[0].value, node.value] + Values(nodes)[1..]
  {
  }

  /** Puts a lone node behind the first of a ring. */
  method Insert(first: Node, nr: Node, ghost nodes: seq<Node>) returns (after: Node)
    requires Linked(nodes) && nodes != [] && nodes[0] == first && nr !in nodes && nr.next == nr == nr.prev
    modifies nodes, nr
    ensures Linked([nodes[0], nr] + nodes[1..])
    ensures Values([nodes[0], nr] + nodes[1..]) == [old(nodes[0].value), old(nr.value)] + old(Values(nodes))[1..]
    ensures after == if |nodes| == 1 then nodes[0] else nodes[1]
  {
    assert |nodes| > 1 ==> nodes[0].next == nodes[1];
    after := Link(first, nr);
    assert forall i :: 0 <= i < |nodes| ==> nodes[i].value == old(nodes[i].value);
    assert Values(nodes) == old(Values(nodes));
    InsertedIsLinked(nodes, nr);
  }

  function Succ(i: nat, n: nat): nat
    requires i < n
  {
    if i + 1 < n then i + 1 else 0
  }

  lemma Neighbours(nodes: seq<Node>, i: nat)
    requires Linked(nodes) && i < |nodes|
    ensures nodes[i].next == nodes[Succ(i, |nodes|)] && nodes[Succ(i, |nodes|)].prev == nodes[i]
  {
  }

  /** `Unlink(1)`: links a node to the one after its neighbour. What is returned is the neighbour, alone. */
  method UnlinkNext(p: Node, ghost nodes: seq<Node>, ghost i: nat) returns (removed: Node)
    requires Linked(nodes) && |nodes| >= 2 && i < |nodes| && p == nodes[i]
    modifies nodes
    ensures removed == nodes[Succ(i, |nodes|)] && Linked([removed]) && removed.value == old(removed.value)
  {
    Neighbours(nodes, i);
    Neighbours(nodes, Succ(i, |nodes|));
    removed := Link(p, p.next.next);
  }

  lemma FirstMatchIs(s: seq<string>, x: string, i: nat)
    requires i <= |s| && (i < |s| ==> s[i] == x) && forall j :: 0 <= j < i ==> s[j] != x
    ensures FirstMatch(s, x) == i
  {
  }

  lemma TurnAfterAdd(nodes: seq<Node>, after: Node, next: Node)
    requires Linked(nodes) && |nodes| >= 2 && after.next == next
    requires after == if |nodes| == 2 then nodes[0] else nodes[2]
    ensures Rotate(nodes, 3 % |nodes|)[0] == next
  {
    Neighbours(nodes, if |nodes| == 2 then 0 else 2);
  }

  class RoundRobin {
    var r: Node?
    ghost var nodes: seq<Node>

    ghost predicate Valid()
      reads this, nodes
    {
      if nodes == [] then r == null else r == nodes[0] && (Linked(nodes) || Lone(nodes))
    }

    /** The backends in the order in which they will be chosen. */
    ghost function Contents(): seq<string>
      reads this, nodes
    {
      Values(nodes)
    }

    ghost function Repr(): set<Node>
      reads this
    {
      set node | node in nodes
    }

    constructor (strs: seq<string>)
      ensures Valid() && fresh(nodes) && Contents() == strs
    {
      r, nodes := null, [];
      new;
      var first, ring := NewRing(|strs|);
      r, nodes := first, ring;
      for i := 0 to |strs|
        invariant nodes == ring && Linked(ring) && |ring| == |strs| && fresh(ring)
        invariant r == if strs == [] then null else if i == |strs| then ring[0] else ring[i]
        invariant forall j :: 0 <= j < i ==> ring[j].value == strs[j]
      {
        r.value := strs[i];
        r := r.next;
      }
    }

    method Len() returns (n: nat)
      requires Valid()
      modifies Repr()
      ensures Valid() && Contents() == old(Contents()) && n == |Contents()| && nodes == old(nodes)
    {
      if r == null {
        return 0;
      }
      n := 1;
      var p := Next(r, nodes);
      while p != r
        invariant 1 <= n <= |nodes| && Linked(nodes) && r == nodes[0] && Contents() == old(Contents())
        invariant p == if n == |nodes| then nodes[0] else nodes[n]
        decreases |nodes| - n
      {
        n := n + 1;
        p := p.next;
      }
    }

    /** The next backend, which goes to the end of the sequence. */
    method Choose() returns (b: Option<string>)
      requires Valid()
      modifies this, Repr()
      ensures Valid() && Repr() == old(Repr())
      ensures old(Contents()) == [] ==> b == None && Contents() == []
      ensures old(Contents()) != [] ==> b == Some(old(Contents())[0]) && Contents() == Rotate(old(Contents()), 1)
      ensures old(Contents()) != [] ==> Contents() == old(Contents())[1..] + [old(Contents())[0]]
    {
      if r == null {
        return None;
      }
      b := Some(r.value);
      r := Next(r, nodes);
      RotatedIsLinked(nodes, 1);
      nodes := Rotate(nodes, 1);
    }

    method Add(s: string)
      requires Valid()
      modifies this, Repr()
      ensures Valid() && fresh(Repr() - old(Repr())) && Contents() == Added(old(Contents()), s)
      ensures var before := old(Contents());
              Contents() == if |before| == 0 then [s] else if |before| == 1 then [s, before[0]]
                            else if |before| == 2 then [before[0], s, before[1]]
                            else before[2..] + [before[0], s, before[1]]
    {
      AddedIs(Contents(), s);
      var nr := new Node(s);
      if r == null {
        r, nodes := nr, [nr];
        assert Contents() == [s];
        return;
      }
      ghost var values := Contents();
      var _ := Next(r, nodes);
      nr.next, nr.prev := nr, nr;
      assert Contents() == values && nr.value == s;
      LinkIn(nr);
    }

    /** Puts a lone node behind the cursor, which moves on to the second of the nodes that followed it. */
    method LinkIn(nr: Node)
      requires Valid() && Linked(nodes) && nodes != [] && nr !in nodes && nr.next == nr == nr.prev
      modifies this, Repr(), nr
      ensures Valid() && Repr() == old(Repr()) + {nr} && Contents() == Added(old(Contents()), old(nr.value))
    {
      ghost var values, x := Contents(), nr.value;
      ghost var ring := [nodes[0], nr] + nodes[1..];
      var after := Insert(r, nr, nodes);
      assert Values(ring) == [values[0], x] + values[1..] && |ring| == |values| + 1;
      AddTurn(after, ring, nr);
      assert Contents() == Rotate([values[0], x] + values[1..], 3 % (|values| + 1)) == Added(values, x);
    }

    /** Moves the cursor to what follows `after`. */
    method AddTurn(after: Node, ghost ring: seq<Node>, ghost nr: Node)
      requires Linked(ring) && |ring| >= 2 && after == (if |ring| == 2 then ring[0] else ring[2])
      modifies this
      ensures nodes == Rotate(ring, 3 % |ring|) && Valid() && Contents() == Rotate(Values(ring), 3 % |ring|)
      ensures Repr() == set node | node in ring
    {
      Neighbours(ring, if |ring| == 2 then 0 else 2);
      r := after.next;
      TurnAfterAdd(ring, after, r);
      RotatedIsLinked(ring, 3 % |ring|);
      nodes := Rotate(ring, 3 % |ring|);
      assert forall node :: node in nodes <==> node in ring;
    }

    /** Scans the ring, beginning behind the cursor, for the first backend of this name. */
    method Remove(s: string)
      requires Valid()
      modifies this, Repr()
      ensures Valid() && Repr() <= old(Repr()) && Contents() == Removed(old(Contents()), s)
      ensures |old(Contents())| <= 1 ==> Contents() == []
      ensures |old(Contents())| >= 2 && s !in old(Contents()) ==> Contents() == old(Contents())
    {
      RemovedElse(Contents(), s);
      var n := Len();
      if n <= 1 {
        r, nodes := null, [];
        return;
      }
      RotatedIsLinked(nodes, 1);
      ghost var scan := Rotate(nodes, 1);
      var p := r;
      for i := 0 to n
        invariant Valid() && nodes == old(nodes) && Linked(scan) && Contents() == old(Contents())
        invariant Values(scan) == Rotate(Contents(), 1)
        invariant p == if i == 0 then scan[n-1] else scan[i-1]
        invariant forall j :: 0 <= j < i ==> scan[j].value != s
      {
        Neighbours(scan, if i == 0 then n - 1 else i - 1);
        p := p.next;
        if p.value == s {
          UnlinkMatch(p, scan, i, s);
          return;
        }
      }
      FirstMatchIs(Values(scan), s, n);
    }

    method UnlinkMatch(p: Node, ghost scan: seq<Node>, ghost i: nat, ghost s: string)
      requires Valid() && Linked(scan) && |nodes| >= 2 && scan == Rotate(nodes, 1) && i < |scan| && scan[i] == p
      requires Values(scan) == Rotate(Contents(), 1)
      requires p.value == s && forall j :: 0 <= j < i ==> scan[j].value != s
      modifies this, Repr()
      ensures Valid() && Repr() <= old(Repr()) && Contents() == Removed(old(Contents()), s)
    {
      ghost var values := Contents();
      FirstMatchIs(Values(scan), s, i);
      assert Removed(values, s) == [scan[Succ(i, |scan|)].value];
      r := UnlinkNext(p, scan, i);
      nodes := [r];
    }
  }

  // ---------------------------------------------------------------- what the balancer is good for

  /** `Remove` takes away one backend of the given name, or nothing if there is none, exactly in these cases;
      with three or more backends it loses all others but one, and a single backend it takes for the one named. */
  lemma RemoveTakesOneWhen(s: seq<string>, x: string)
    ensures multiset(Removed(s, x)) == multiset(s) - multiset{x}
       <==> |s| == 0 || (|s| == 1 && s[0] == x) || |s| == 2 || (|s| >= 3 && x !in s)
  {
    if |s| == 1 {
      assert s == [s[0]];
    } else if |s| == 2 {
      RemoveFromTwo(s, x);
    } else if |s| >= 3 {
      RemoveFromMany(s, x);
    }
  }

  lemma RemoveFromTwo(s: seq<string>, x: string)
    requires |s| == 2
    ensures multiset(Removed(s, x)) == multiset(s) - multiset{x}
  {
    var a, b := s[0], s[1];
    assert s == [a, b];
    RemovedFromTwo(a, b, x);
    assert multiset(s) == multiset{a, b};
  }

  lemma RemovedFromTwo(a: string, b: string, x: string)
    ensures Removed([a, b], x) == if b == x then [a] else if a == x then [b] else [a, b]
  {
    FirstMatchIs([b, a], x, if b == x then 0 else if a == x then 1 else 2);
    assert Rotate([a, b], 1) == [b, a];
  }

  lemma RemoveFromMany(s: seq<string>, x: string)
    requires |s| >= 3
    ensures multiset(Removed(s, x)) == multiset(s) - multiset{x} <==> x !in s
  {
    ScanHasAll(s);
    var i := FirstMatch(Rotate(s, 1), x);
    if x in s {
      assert x in multiset(s) && x in multiset(Rotate(s, 1));
      assert |multiset(s) - multiset{x}| == |s| - 1 && |Removed(s, x)| == 1;
      assert |multiset(Removed(s, x))| == 1;
    } else {
      assert x !in multiset(Rotate(s, 1)) && i == |s|;
    }
  }

  lemma ScanHasAll(s: seq<string>)
    requires s != []
    ensures multiset(Rotate(s, 1)) == multiset(s)
  {
    assert s == [s[0]] + s[1..] && Rotate(s, 1) == s[1..] + [s[0]];
  }

  /** What k calls of `Choose` return, whoever makes them. */
  function Chosen(s: seq<string>, k: nat): seq<string>
    requires s != []
    decreases k
  {
    if k == 0 then [] else [s[0]] + Chosen(Rotate(s, 1), k - 1)
  }

  lemma {:induction false} ChosenSplits(s: seq<string>, j: nat, k: nat)
    requires s != [] && j <= |s|
    ensures Chosen(s, j + k) == s[..j] + Chosen(Rotate(s, j), k)
    decreases j
  {
    if j == 0 {
      assert Rotate(s, 0) == s;
    } else {
      var t := Rotate(s, 1);
      ChosenSplits(t, j - 1, k);
      assert Rotate(t, j - 1) == Rotate(s, j) && [s[0]] + t[..j-1] == s[..j];
    }
  }

  /** Between q and q + 1 times as often as the ring has it. */
  ghost predicate FairShare(q: nat, has: nat, chosen: nat) {
    q * has <= chosen <= (q + 1) * has
  }

  lemma OneTurnMore(q: nat, has: nat, chosen: nat)
    requires FairShare(q, has, chosen)
    ensures FairShare(q + 1, has, chosen + has)
  {
    assert (q + 1) * has == q * has + has && (q + 2) * has == (q + 1) * has + has;
  }

  lemma ChosenInTurn(s: seq<string>, k: nat)
    requires s != [] && k <= |s|
    ensures Chosen(s, k) == s[..k]
  {
    ChosenSplits(s, k, 0);
  }

  lemma CountOfPrefix(s: seq<string>, k: nat, x: string)
    requires k <= |s|
    ensures multiset(s[..k])[x] <= multiset(s)[x]
  {
    assert s == s[..k] + s[k..];
  }

  lemma PartOfTurn(s: seq<string>, k: nat, x: string)
    requires s != [] && k < |s|
    ensures FairShare(0, multiset(s)[x], multiset(Chosen(s, k))[x])
  {
    ChosenInTurn(s, k);
    CountOfPrefix(s, k, x);
  }

  lemma WholeTurn(s: seq<string>, k: nat)
    requires s != [] && k >= |s|
    ensures Chosen(s, k) == s + Chosen(s, k - |s|)
  {
    ChosenSplits(s, |s|, k - |s|);
    assert Rotate(s, |s|) == s;
  }

  lemma AfterTurn(s: seq<string>, k: nat, q: nat, x: string)
    requires s != [] && k >= |s| && FairShare(q, multiset(s)[x], multiset(Chosen(s, k - |s|))[x])
    ensures FairShare(q + 1, multiset(s)[x], multiset(Chosen(s, k))[x])
  {
    WholeTurn(s, k);
    OneTurnMore(q, multiset(s)[x], multiset(Chosen(s, k - |s|))[x]);
  }

  /** Over any window of calls each backend is chosen q times as often as it is configured, or up to once more for
      each time; so backends configured once differ by at most one. */
  lemma {:induction false} ChoiceIsFair(s: seq<string>, k: nat) returns (q: nat)
    requires s != []
    ensures forall x :: FairShare(q, multiset(s)[x], multiset(Chosen(s, k))[x])
    decreases k
  {
    if k < |s| {
      q := 0;
      forall x ensures FairShare(q, multiset(s)[x], multiset(Chosen(s, k))[x]) {
        PartOfTurn(s, k, x);
      }
    } else {
      var p := ChoiceIsFair(s, k - |s|);
      q := p + 1;
      forall x ensures FairShare(q, multiset(s)[x], multiset(Chosen(s, k))[x]) {
        AfterTurn(s, k, p, x);
      }
    }
  }
}
