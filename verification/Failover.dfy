/** Calls that look for a peer at the same time share one ring. Each turn of the ring goes to one of them, so a call
that is interrupted by others need not meet the peers one after the other, nor all of them. */
module Failover {
  import opened Wrappers
  import opened Ring

  /** A call of `execute`: the turns of the ring that it was given, the peers it so tried, and whether one connected. */
  datatype Call = Call(turns: seq<nat>, tried: seq<string>, connected: bool)

  /** The ring as it reads now, how often it has been turned, and all calls. */
  datatype State = State(ring: seq<string>, turned: nat, calls: seq<Call>)

  datatype Label = Start | Try(call: nat, connects: bool)

  /** A call tries as many peers as there are, unless one connects. */
  predicate Enabled(s: State, l: Label) {
    match l
    case Start => true
    case Try(a, _) => a < |s.calls| && !s.calls[a].connected && |s.calls[a].turns| < |s.ring|
  }

  function Apply(s: State, l: Label): State
    requires Enabled(s, l)
  {
    match l
    case Start => s.(calls := s.calls + [Call([], [], false)])
    case Try(a, connects) =>
      var call := s.calls[a];
      State(Rotate(s.ring, 1), s.turned + 1,
            s.calls[a := Call(call.turns + [s.turned], call.tried + [s.ring[0]], connects)])
  }

  ghost predicate IsRun(peers: seq<string>, states: seq<State>, labels: seq<Label>) {
    && |states| == |labels| + 1 && states[0] == State(peers, 0, [])
    && forall i :: 0 <= i < |labels| ==> Enabled(states[i], labels[i]) && states[i+1] == Apply(states[i], labels[i])
  }

  // ---------------------------------------------------------------- what every run keeps

  ghost predicate Increasing(turns: seq<nat>) {
    forall i, j :: 0 <= i < j < |turns| ==> turns[i] < turns[j]
  }

  /** The peers that a call tried are those at its turns. */
  ghost predicate CallInv(peers: seq<string>, turned: nat, call: Call) {
    && |call.turns| == |call.tried| <= |peers| && Increasing(call.turns)
    && forall i :: 0 <= i < |call.turns| ==> call.turns[i] < turned && call.tried[i] == peers[call.turns[i] % |peers|]
  }

  /** The turn went to this call. */
  ghost predicate GivenTo(s: State, t: int, a: int) {
    0 <= a < |s.calls| && t in s.calls[a].turns
  }

  /** Every turn went to one call. */
  ghost predicate Given(s: State, t: int) {
    && (exists a :: GivenTo(s, t, a))
    && (forall a, b :: GivenTo(s, t, a) && GivenTo(s, t, b) ==> a == b)
  }

  ghost predicate Inv(peers: seq<string>, s: State) {
    && |s.ring| == |peers|
    && (peers != [] ==> s.ring == Rotate(peers, s.turned % |peers|))
    && (forall a :: 0 <= a < |s.calls| ==> CallInv(peers, s.turned, s.calls[a]))
    && (forall t :: 0 <= t < s.turned ==> Given(s, t))
  }

  lemma RingTurns(peers: seq<string>, turned: nat)
    requires peers != []
    ensures Rotate(Rotate(peers, turned % |peers|), 1) == Rotate(peers, (turned + 1) % |peers|)
    ensures Rotate(peers, turned % |peers|)[0] == peers[turned % |peers|]
  {
    var k := turned % |peers|;
    RotateOnceMore(peers, k);
    SumRemainder(turned, 1, |peers|);
    if k + 1 == |peers| { assert Rotate(peers, |peers|) == peers == Rotate(peers, 0); }
  }

  lemma NoMultipleBetween(m: int, n: int)
    requires -n < m * n < n
    ensures m == 0
  {
    assert m >= 1 ==> m * n >= n;
    assert m <= -1 ==> m * n <= -n;
  }

  lemma Remainder(t: nat, n: nat, q: nat, r: nat)
    requires r < n && t == q * n + r
    ensures t % n == r
  {
    var m: int := q - t / n;
    assert t == t / n * n + t % n;
    assert m * n == q * n - t / n * n;
    NoMultipleBetween(m, n);
  }

  lemma SumRemainder(t: nat, i: nat, n: nat)
    requires 0 < n && i <= n
    ensures (t + i) % n == if t % n + i < n then t % n + i else t % n + i - n
  {
    var q, r := t / n, t % n;
    assert t == q * n + r;
    if r + i < n {
      Remainder(t + i, n, q, r + i);
    } else {
      assert (q + 1) * n == q * n + n;
      Remainder(t + i, n, q + 1, r + i - n);
    }
  }

  lemma CallAfterTry(peers: seq<string>, s: State, a: nat, connects: bool)
    requires Inv(peers, s) && Enabled(s, Try(a, connects))
    ensures CallInv(peers, s.turned + 1, Apply(s, Try(a, connects)).calls[a])
  {
    RingTurns(peers, s.turned);
    assert CallInv(peers, s.turned, s.calls[a]);
  }

  lemma GivenAfterTry(peers: seq<string>, s: State, a: nat, connects: bool, t: int, b: int)
    requires Inv(peers, s) && Enabled(s, Try(a, connects))
    ensures GivenTo(Apply(s, Try(a, connects)), t, b) <==> GivenTo(s, t, b) || (t == s.turned && b == a)
  {
  }

  lemma NotGivenYet(peers: seq<string>, s: State, a: int)
    requires Inv(peers, s)
    ensures !GivenTo(s, s.turned, a)
  {
    if 0 <= a < |s.calls| { assert CallInv(peers, s.turned, s.calls[a]); }
  }

  lemma TurnAfterTry(peers: seq<string>, s: State, a: nat, connects: bool, t: int)
    requires Inv(peers, s) && Enabled(s, Try(a, connects)) && 0 <= t <= s.turned
    ensures Given(Apply(s, Try(a, connects)), t)
  {
    var s' := Apply(s, Try(a, connects));
    forall b ensures GivenTo(s', t, b) <==> GivenTo(s, t, b) || (t == s.turned && b == a) {
      GivenAfterTry(peers, s, a, connects, t, b);
    }
    if t == s.turned {
      forall b ensures !GivenTo(s, t, b) { NotGivenYet(peers, s, b); }
      assert GivenTo(s', t, a);
    } else {
      assert Given(s, t);
      var b :| GivenTo(s, t, b);
      assert GivenTo(s', t, b);
    }
  }

  lemma TryKeepsInv(peers: seq<string>, s: State, a: nat, connects: bool)
    requires Inv(peers, s) && Enabled(s, Try(a, connects))
    ensures Inv(peers, Apply(s, Try(a, connects)))
  {
    var s' := Apply(s, Try(a, connects));
    RingTurns(peers, s.turned);
    forall b | 0 <= b < |s'.calls| ensures CallInv(peers, s'.turned, s'.calls[b]) {
      assert CallInv(peers, s.turned, s.calls[b]);
      CallAfterTry(peers, s, a, connects);
    }
    forall t | 0 <= t < s'.turned ensures Given(s', t) {
      TurnAfterTry(peers, s, a, connects, t);
    }
  }

  lemma StartKeepsInv(peers: seq<string>, s: State)
    requires Inv(peers, s)
    ensures Inv(peers, Apply(s, Start))
  {
    var s' := Apply(s, Start);
    forall t | 0 <= t < s'.turned ensures Given(s', t) {
      assert Given(s, t);
      assert forall a :: GivenTo(s', t, a) <==> GivenTo(s, t, a);
    }
  }

  lemma StepKeepsInv(peers: seq<string>, s: State, l: Label)
    requires Inv(peers, s) && Enabled(s, l)
    ensures Inv(peers, Apply(s, l))
  {
    match l
    case Start => StartKeepsInv(peers, s);
    case Try(a, connects) => TryKeepsInv(peers, s, a, connects);
  }

  lemma InitInv(peers: seq<string>)
    ensures Inv(peers, State(peers, 0, []))
  {
    if peers != [] { assert Rotate(peers, 0) == peers; }
  }

  lemma {:induction false} RunKeepsInv(peers: seq<string>, states: seq<State>, labels: seq<Label>, n: nat)
    requires IsRun(peers, states, labels) && n <= |labels|
    ensures Inv(peers, states[n])
  {
    if n > 0 {
      RunKeepsInv(peers, states, labels, n - 1);
      StepKeepsInv(peers, states[n-1], labels[n-1]);
    } else {
      InitInv(peers);
    }
  }

  // ---------------------------------------------------------------- one sequence of turns

  lemma ChosenFirst(s: seq<string>, k: nat, i: nat)
    requires s != [] && i < k && i < |s|
    ensures i < |Chosen(s, k)| && Chosen(s, k)[i] == s[i]
  {
    if k < |s| { ChosenInTurn(s, k); } else { WholeTurn(s, k); }
  }

  lemma {:induction false} ChosenAt(s: seq<string>, k: nat, i: nat)
    requires s != [] && i < k
    ensures i < |Chosen(s, k)| && Chosen(s, k)[i] == s[i % |s|]
    decreases k
  {
    if i < |s| {
      ChosenFirst(s, k, i);
      Remainder(i, |s|, 0, i);
    } else {
      WholeTurn(s, k);
      ChosenAt(s, k - |s|, i - |s|);
      SumRemainder(i - |s|, |s|, |s|);
    }
  }

  lemma {:induction false} ChosenLength(s: seq<string>, k: nat)
    requires s != []
    ensures |Chosen(s, k)| == k
    decreases k
  {
    if k > 0 { ChosenLength(Rotate(s, 1), k - 1); }
  }

  /** `part` is what stands in `all` at these places, in order. */
  ghost predicate IsPart(part: seq<string>, places: seq<nat>, all: seq<string>) {
    && |part| == |places| && Increasing(places)
    && forall i :: 0 <= i < |places| ==> places[i] < |all| && part[i] == all[places[i]]
  }

  lemma CallIsPart(peers: seq<string>, turned: nat, call: Call)
    requires peers != [] && CallInv(peers, turned, call)
    ensures IsPart(call.tried, call.turns, Chosen(peers, turned))
  {
    ChosenLength(peers, turned);
    forall i | 0 <= i < |call.turns|
      ensures call.turns[i] < |Chosen(peers, turned)| && call.tried[i] == Chosen(peers, turned)[call.turns[i]]
    {
      ChosenAt(peers, turned, call.turns[i]);
    }
  }

  /** However calls interrupt each other: each turn of the ring goes to one call, and what a call tries are, in order,
      those of the peers chosen one after the other by all of them that fell to it. */
  lemma TriesAreTurns(peers: seq<string>, states: seq<State>, labels: seq<Label>, n: nat, a: nat)
    requires IsRun(peers, states, labels) && n <= |labels| && peers != [] && a < |states[n].calls|
    ensures var s, call := states[n], states[n].calls[a];
            && |call.tried| <= |peers| && IsPart(call.tried, call.turns, Chosen(peers, s.turned))
            && forall t :: 0 <= t < s.turned ==> Given(s, t)
  {
    RunKeepsInv(peers, states, labels, n);
    CallIsPart(peers, states[n].turned, states[n].calls[a]);
  }

  // ---------------------------------------------------------------- which peers a call meets

  ghost predicate DistinctNames(s: seq<string>) {
    forall i, j :: 0 <= i < j < |s| ==> s[i] != s[j]
  }

  /** No two turns are whole rounds of n apart. */
  ghost predicate NoRoundsApart(turns: seq<nat>, n: nat)
    requires n > 0
  {
    forall i, j :: 0 <= i < j < |turns| ==> turns[i] % n != turns[j] % n
  }

  function Names(s: seq<string>): set<string> {
    set x | x in s
  }

  lemma {:induction false} CountNames(s: seq<string>)
    ensures |Names(s)| <= |s| && (|Names(s)| == |s| <==> DistinctNames(s))
  {
    if s != [] {
      var init, last := s[..|s|-1], s[|s|-1];
      CountNames(init);
      assert s == init + [last];
      assert Names(s) == Names(init) + {last};
      DistinctWithLast(s);
    }
  }

  lemma DistinctWithLast(s: seq<string>)
    requires s != []
    ensures DistinctNames(s) <==> DistinctNames(s[..|s|-1]) && s[|s|-1] !in Names(s[..|s|-1])
  {
    var init, last := s[..|s|-1], s[|s|-1];
    if DistinctNames(init) && last !in Names(init) {
      forall i, j | 0 <= i < j < |s| ensures s[i] != s[j] {
        assert s[i] == init[i];
      }
    }
    if last in Names(init) {
      var i :| 0 <= i < |init| && init[i] == last;
      assert s[i] == s[|s|-1];
    }
  }

  lemma Subset(a: set<string>, b: set<string>)
    requires a <= b && |a| == |b|
    ensures a == b
  {
    assert b == a + (b - a);
  }

  lemma TriedAreTurns(peers: seq<string>, turned: nat, call: Call)
    requires peers != [] && DistinctNames(peers) && CallInv(peers, turned, call)
    ensures DistinctNames(call.tried) <==> NoRoundsApart(call.turns, |peers|)
  {
    var n := |peers|;
    forall i, j | 0 <= i < j < |call.turns|
      ensures call.tried[i] == call.tried[j] <==> call.turns[i] % n == call.turns[j] % n
    {
      assert call.tried[i] == peers[call.turns[i] % n] && call.tried[j] == peers[call.turns[j] % n];
    }
  }

  lemma TriedArePeers(peers: seq<string>, turned: nat, call: Call)
    requires peers != [] && CallInv(peers, turned, call)
    ensures Names(call.tried) <= Names(peers)
  {
    forall x | x in Names(call.tried) ensures x in Names(peers) {
      var i :| 0 <= i < |call.tried| && call.tried[i] == x;
      assert x == peers[call.turns[i] % |peers|];
    }
  }

  /** A call tries no peer twice exactly if no two of its turns are whole rounds apart. A call that no peer would
      connect has then been refused by all of them, and otherwise it has not tried some. */
  lemma TriesEachOnceWhen(peers: seq<string>, states: seq<State>, labels: seq<Label>, n: nat, a: nat)
    requires IsRun(peers, states, labels) && n <= |labels| && a < |states[n].calls|
    requires peers != [] && DistinctNames(peers)
    ensures var call := states[n].calls[a];
            && (DistinctNames(call.tried) <==> NoRoundsApart(call.turns, |peers|))
            && (|call.tried| == |peers| ==>
                  (Names(call.tried) == Names(peers) <==> NoRoundsApart(call.turns, |peers|)))
  {
    RunKeepsInv(peers, states, labels, n);
    var s, call := states[n], states[n].calls[a];
    assert CallInv(peers, s.turned, call);
    TriedAreTurns(peers, s.turned, call);
    TriedArePeers(peers, s.turned, call);
    CountNames(peers);
    CountNames(call.tried);
    if |call.tried| == |peers| && DistinctNames(call.tried) { Subset(Names(call.tried), Names(peers)); }
  }

  /** A call has connected exactly if one of its tries did, and after that it tries no more. */
  lemma {:induction false} ConnectsOnce(peers: seq<string>, states: seq<State>, labels: seq<Label>, n: nat, a: nat)
    requires IsRun(peers, states, labels) && n <= |labels|
    ensures (a < |states[n].calls| && states[n].calls[a].connected)
       <==> exists i :: 0 <= i < n && labels[i] == Try(a, true)
    ensures forall i, j :: 0 <= i < j < n && labels[i] == Try(a, true) ==> !(labels[j].Try? && labels[j].call == a)
    ensures forall i :: 0 <= i < n && labels[i].Try? && labels[i].call == a ==> a < |states[n].calls|
  {
    if n > 0 {
      ConnectsOnce(peers, states, labels, n - 1, a);
      assert Enabled(states[n-1], labels[n-1]) && states[n] == Apply(states[n-1], labels[n-1]);
    }
  }

  // ---------------------------------------------------------------- with and without interruption

  /** A call that nobody interrupts tries the peers in the order of the ring, from where it stood. */
  lemma UninterruptedInOrder(peers: seq<string>, turned: nat, call: Call, first: nat)
    requires peers != [] && CallInv(peers, turned, call)
    requires forall i :: 0 <= i < |call.turns| ==> call.turns[i] == first + i
    ensures call.tried == Rotate(peers, first % |peers|)[..|call.tried|]
  {
    var n := |peers|;
    forall i | 0 <= i < |call.tried| ensures call.tried[i] == Rotate(peers, first % n)[i] {
      assert call.tried[i] == peers[(first + i) % n];
      SumRemainder(first, i, n);
    }
  }

  lemma FirstTries(x: string, y: string, t: nat, first: Call, second: Call)
    requires !first.connected && |first.turns| < 2
    ensures var s := State([x, y], t, [first, second]);
            && Enabled(s, Try(0, false))
            && Apply(s, Try(0, false))
               == State([y, x], t + 1, [Call(first.turns + [t], first.tried + [x], false), second])
  {
    assert [x, y][1..] + [x] == [y, x];
    assert [first, second][0 := Call(first.turns + [t], first.tried + [x], false)]
        == [Call(first.turns + [t], first.tried + [x], false), second];
  }

  lemma SecondTries(x: string, y: string, t: nat, first: Call, second: Call)
    requires !second.connected && |second.turns| < 2
    ensures var s := State([x, y], t, [first, second]);
            && Enabled(s, Try(1, false))
            && Apply(s, Try(1, false))
               == State([y, x], t + 1, [first, Call(second.turns + [t], second.tried + [x], false)])
  {
    assert [x, y][1..] + [x] == [y, x];
    assert [first, second][1 := Call(second.turns + [t], second.tried + [x], false)]
        == [first, Call(second.turns + [t], second.tried + [x], false)];
  }

  lemma OneMore(peers: seq<string>, states: seq<State>, labels: seq<Label>, l: Label, s': State)
    returns (states': seq<State>, labels': seq<Label>)
    requires IsRun(peers, states, labels) && Enabled(states[|labels|], l) && s' == Apply(states[|labels|], l)
    ensures IsRun(peers, states', labels') && states'[|labels'|] == s'
  {
    states', labels' := states + [s'], labels + [l];
  }

  /** With two peers, a call that is interrupted once tries one of them twice, gives up, and has not tried the other. */
  lemma OnePeerTwice(x: string, y: string) returns (states: seq<State>, labels: seq<Label>)
    ensures IsRun([x, y], states, labels)
    ensures states[|labels|].calls == [Call([0, 2], [x, x], false), Call([1], [y], false)]
  {
    var none, a, b, c := Call([], [], false), Call([0], [x], false), Call([1], [y], false), Call([0, 2], [x, x], false);
    var s0, s1, s2 := State([x, y], 0, []), State([x, y], 0, [none]), State([x, y], 0, [none, none]);
    states, labels := [s0], [];
    states, labels := OneMore([x, y], states, labels, Start, s1);
    states, labels := OneMore([x, y], states, labels, Start, s2);
    assert Call(none.turns + [0], none.tried + [x], false) == a;
    FirstTries(x, y, 0, none, none);
    states, labels := OneMore([x, y], states, labels, Try(0, false), State([y, x], 1, [a, none]));
    assert Call(none.turns + [1], none.tried + [y], false) == b;
    SecondTries(y, x, 1, a, none);
    states, labels := OneMore([x, y], states, labels, Try(1, false), State([x, y], 2, [a, b]));
    assert Call(a.turns + [2], a.tried + [x], false) == c;
    FirstTries(x, y, 2, a, b);
    states, labels := OneMore([x, y], states, labels, Try(0, false), State([y, x], 3, [c, b]));
  }
}
