/** The loop that moves documents from the cache into the database, with the goroutines around it:
getters that drain the cache, a bounded channel, a queue, and database writes limited by a semaphore.

A run is a sequence of labels, each an atomic step of the loop or of one goroutine. */
module Persister {
  import opened Documents

  /** `topics` are the configured periods, `limits` how many documents one `Get` may return for each. */
  datatype Config = Config(workers: nat, queueSize: int, chanCap: nat, topics: seq<string>, limits: map<string, nat>)
  {
    /** The capacity of the channel is never zero: a setting that is not positive stands for 10000. */
    predicate Valid() {
      chanCap >= 1 && forall topic :: topic in topics ==> topic in limits
    }

    function MaxBatch(): nat {
      if queueSize > 1 then queueSize else 1
    }
  }

  /** A goroutine that is still calling `Get`, or is sending what it got on the channel one by one: `docs` is what
      it has still to send. */
  datatype Getter = Getter(topic: string, fetching: bool, docs: seq<Document>, got: seq<Document>)

  datatype Loop =
    | AtSelect
    | TickWait // waiting for a permit to fetch
    | Received(doc: Document) // about to be queued
    | Handing // waiting for a permit to write the queue

  /** The last three fields record the history of a run: what getters took from the cache, what the loop
      received, and the batches it handed over. */
  datatype State = State(
    spawners: nat,
    getters: seq<Getter>,
    chan: seq<Document>,
    loop: Loop,
    queue: seq<Document>,
    running: seq<seq<Document>>,
    written: seq<Document>,
    failed: seq<Document>,
    fetched: seq<Document>,
    received: seq<Document>,
    handed: seq<seq<Document>>)

  const INIT := State(0, [], [], AtSelect, [], [], [], [], [], [], [])

  datatype Label =
    | Tick
    | AcquireTick
    | Spawn
    | Take(getter: nat, doc: Document)
    | Stop(getter: nat)
    | Send(getter: nat)
    | Receive
    | Append
    | Timeout
    | Acquire
    | Finish(write: nat, ok: bool)

  /** Permits are held by goroutines about to start getters, and by database writes. */
  function Permits(s: State): nat {
    s.spawners + |s.running|
  }

  predicate Enabled(cfg: Config, s: State, l: Label) {
    match l
    case Tick => s.loop.AtSelect?
    case AcquireTick => s.loop.TickWait? && Permits(s) < cfg.workers
    case Spawn => s.spawners > 0
    case Take(g, doc) =>
      && g < |s.getters| && s.getters[g].fetching && s.getters[g].topic in cfg.limits
      && |s.getters[g].docs| < cfg.limits[s.getters[g].topic]
    case Stop(g) => g < |s.getters| && s.getters[g].fetching
    case Send(g) =>
      g < |s.getters| && !s.getters[g].fetching && s.getters[g].docs != [] && |s.chan| < cfg.chanCap
    case Receive => s.loop.AtSelect? && s.chan != []
    case Append => s.loop.Received?
    case Timeout => s.loop.AtSelect? && s.queue != []
    case Acquire => s.loop.Handing? && Permits(s) < cfg.workers
    case Finish(i, _) => i < |s.running|
  }

  function Apply(cfg: Config, s: State, l: Label): State
    requires Enabled(cfg, s, l)
  {
    match l
    case Tick => s.(loop := TickWait)
    case AcquireTick => s.(loop := AtSelect, spawners := s.spawners + 1)
    case Spawn =>
      s.(spawners := s.spawners - 1, getters := s.getters + NewGetters(cfg.topics))
    case Take(g, doc) =>
      var getter := s.getters[g];
      s.(getters := s.getters[g := getter.(docs := getter.docs + [doc], got := getter.got + [doc])],
         fetched := s.fetched + [doc])
    case Stop(g) => s.(getters := s.getters[g := s.getters[g].(fetching := false)])
    case Send(g) =>
      var getter := s.getters[g];
      s.(getters := s.getters[g := getter.(docs := getter.docs[1..])], chan := s.chan + [getter.docs[0]])
    case Receive =>
      s.(loop := Received(s.chan[0]), chan := s.chan[1..], received := s.received + [s.chan[0]])
    case Append =>
      var queue := s.queue + [s.loop.doc];
      s.(queue := queue, loop := if |queue| < cfg.queueSize then AtSelect else Handing)
    case Timeout => s.(loop := Handing)
    case Acquire =>
      s.(loop := AtSelect, queue := [], running := s.running + [s.queue], handed := s.handed + [s.queue])
    case Finish(i, ok) =>
      var rest := s.(running := s.running[..i] + s.running[i+1..]);
      if ok then rest.(written := s.written + s.running[i]) else rest.(failed := s.failed + s.running[i])
  }

  function NewGetters(topics: seq<string>): seq<Getter> {
    seq(|topics|, i requires 0 <= i < |topics| => Getter(topics[i], true, [], []))
  }

  ghost predicate IsRun(cfg: Config, states: seq<State>, labels: seq<Label>) {
    && |states| == |labels| + 1
    && forall i :: 0 <= i < |labels| ==>
         Enabled(cfg, states[i], labels[i]) && states[i+1] == Apply(cfg, states[i], labels[i])
  }

  ghost predicate Reachable(cfg: Config, s: State) {
    exists states, labels :: IsRun(cfg, states, labels) && states[0] == INIT && states[|labels|] == s
  }

  // ---------------------------------------------------------------- where the documents are

  /** What getters hold and have not sent. */
  function Held(getters: seq<Getter>): multiset<Document> {
    if getters == [] then multiset{}
    else Held(getters[..|getters|-1]) + multiset(getters[|getters|-1].docs)
  }

  /** All documents of several batches. */
  function All(batches: seq<seq<Document>>): multiset<Document> {
    if batches == [] then multiset{}
    else All(batches[..|batches|-1]) + multiset(batches[|batches|-1])
  }

  /** The batches one after the other. */
  function Concat(batches: seq<seq<Document>>): seq<Document> {
    if batches == [] then [] else Concat(batches[..|batches|-1]) + batches[|batches|-1]
  }

  function InHand(loop: Loop): seq<Document> {
    if loop.Received? then [loop.doc] else []
  }

  function InTransit(s: State): multiset<Document> {
    Held(s.getters) + multiset(s.chan) + multiset(InHand(s.loop)) + multiset(s.queue) + All(s.running)
  }

  function Settled(s: State): multiset<Document> {
    multiset(s.written) + multiset(s.failed)
  }

  lemma {:induction false} AllOfConcat(a: seq<seq<Document>>, b: seq<seq<Document>>)
    ensures All(a + b) == All(a) + All(b)
  {
    if b == [] {
      assert a + b == a;
    } else {
      assert (a + b)[..|a + b|-1] == a + b[..|b|-1];
      AllOfConcat(a, b[..|b|-1]);
    }
  }

  lemma {:induction false} AllSplit(batches: seq<seq<Document>>, i: nat)
    requires i < |batches|
    ensures All(batches) == All(batches[..i] + batches[i+1..]) + multiset(batches[i])
  {
    var one := [batches[i]];
    assert batches == batches[..i] + one + batches[i+1..];
    assert All(one) == multiset(batches[i]) by { assert one[..0] == []; }
    AllOfConcat(batches[..i] + one, batches[i+1..]);
    AllOfConcat(batches[..i], one);
    AllOfConcat(batches[..i], batches[i+1..]);
  }

  lemma {:induction false} HeldUpdate(getters: seq<Getter>, g: nat, getter: Getter)
    requires g < |getters|
    ensures Held(getters[g := getter]) + multiset(getters[g].docs) == Held(getters) + multiset(getter.docs)
  {
    var n := |getters| - 1;
    if g < n {
      HeldUpdate(getters[..n], g, getter);
      var init := getters[..n];
      assert getters[g := getter][..n] == init[g := getter];
      calc {
        Held(getters[g := getter]) + multiset(getters[g].docs);
        Held(init[g := getter]) + multiset(getters[n].docs) + multiset(init[g].docs);
        (Held(init[g := getter]) + multiset(init[g].docs)) + multiset(getters[n].docs);
        Held(init) + multiset(getter.docs) + multiset(getters[n].docs);
        Held(getters) + multiset(getter.docs);
      }
    } else {
      assert getters[g := getter][..n] == getters[..n];
    }
  }

  lemma {:induction false} NewGettersHoldNothing(getters: seq<Getter>, topics: seq<string>)
    ensures Held(getters + NewGetters(topics)) == Held(getters)
  {
    if topics == [] {
      assert getters + NewGetters(topics) == getters;
    } else {
      var n := |topics| - 1;
      NewGettersHoldNothing(getters, topics[..n]);
      assert (getters + NewGetters(topics))[..|getters| + n] == getters + NewGetters(topics[..n]);
    }
  }

  lemma Cancel(x: multiset<Document>, y: multiset<Document>, z: multiset<Document>)
    requires x + z == y + z
    ensures x == y
  {
    assert x == (x + z) - z && y == (y + z) - z;
  }

  lemma HeadAndTail(s: seq<Document>)
    requires s != []
    ensures multiset(s) == multiset{s[0]} + multiset(s[1..])
  {
    assert s == [s[0]] + s[1..];
  }

  // ---------------------------------------------------------------- what every run keeps

  ghost predicate BatchesBounded(cfg: Config, batches: seq<seq<Document>>) {
    forall i :: 0 <= i < |batches| ==> 1 <= |batches[i]| <= cfg.MaxBatch()
  }

  ghost predicate Conserved(s: State) {
    multiset(s.fetched) == InTransit(s) + Settled(s)
  }

  ghost predicate InOrder(s: State) {
    Concat(s.handed) + s.queue + InHand(s.loop) == s.received
  }

  ghost predicate Bounded(cfg: Config, s: State) {
    && BatchesBounded(cfg, s.handed) && BatchesBounded(cfg, s.running)
    && (if s.loop.Handing? then 1 <= |s.queue| <= cfg.MaxBatch() else |s.queue| < cfg.MaxBatch())
    && |s.chan| <= cfg.chanCap && Permits(s) <= cfg.workers
  }

  ghost predicate Inv(cfg: Config, s: State) {
    Conserved(s) && InOrder(s) && Bounded(cfg, s)
  }

  lemma HeldAfterSend(getters: seq<Getter>, g: nat)
    requires g < |getters| && getters[g].docs != []
    ensures Held(getters)
         == Held(getters[g := getters[g].(docs := getters[g].docs[1..])]) + multiset{getters[g].docs[0]}
  {
    var before, after := getters[g], getters[g].(docs := getters[g].docs[1..]);
    HeldUpdate(getters, g, after);
    HeadAndTail(before.docs);
    Cancel(Held(getters[g := after]) + multiset{before.docs[0]}, Held(getters), multiset(after.docs));
  }

  lemma HeldAfterTake(getters: seq<Getter>, g: nat, doc: Document)
    requires g < |getters|
    ensures Held(getters[g := getters[g].(docs := getters[g].docs + [doc], got := getters[g].got + [doc])])
         == Held(getters) + multiset{doc}
  {
    var before, after := getters[g], getters[g].(docs := getters[g].docs + [doc], got := getters[g].got + [doc]);
    HeldUpdate(getters, g, after);
    Cancel(Held(getters[g := after]), Held(getters) + multiset{doc}, multiset(before.docs));
  }

  lemma HeldAfter(cfg: Config, s: State, l: Label)
    requires Enabled(cfg, s, l) && (l.Take? || l.Stop? || l.Send?)
    ensures var held, held' := Held(s.getters), Held(Apply(cfg, s, l).getters);
            match l
            case Take(_, doc) => held' == held + multiset{doc}
            case Send(g) => held == held' + multiset{s.getters[g].docs[0]}
            case _ => held' == held
  {
    if l.Send? {
      HeldAfterSend(s.getters, l.getter);
    } else if l.Take? {
      HeldAfterTake(s.getters, l.getter, l.doc);
    } else {
      var after := s.getters[l.getter].(fetching := false);
      HeldUpdate(s.getters, l.getter, after);
      Cancel(Held(s.getters[l.getter := after]), Held(s.getters), multiset(after.docs));
    }
  }

  lemma SendConserves(cfg: Config, s: State, g: nat)
    requires Conserved(s) && Enabled(cfg, s, Send(g))
    ensures Conserved(Apply(cfg, s, Send(g)))
  {
    var s', doc := Apply(cfg, s, Send(g)), s.getters[g].docs[0];
    HeldAfter(cfg, s, Send(g));
    assert multiset(s'.chan) == multiset(s.chan) + multiset{doc};
    assert InTransit(s') == InTransit(s);
  }

  lemma OneMoreConserves(s: State, getters: seq<Getter>, doc: Document)
    requires Conserved(s) && Held(getters) == Held(s.getters) + multiset{doc}
    ensures Conserved(s.(getters := getters, fetched := s.fetched + [doc]))
  {
    var rest := multiset(s.chan) + multiset(InHand(s.loop)) + multiset(s.queue) + All(s.running);
    assert InTransit(s) == Held(s.getters) + rest;
    assert Held(getters) + rest == Held(s.getters) + rest + multiset{doc};
  }

  lemma TakeConserves(cfg: Config, s: State, g: nat, doc: Document)
    requires Conserved(s) && Enabled(cfg, s, Take(g, doc))
    ensures Conserved(Apply(cfg, s, Take(g, doc)))
  {
    HeldAfter(cfg, s, Take(g, doc));
    OneMoreConserves(s, Apply(cfg, s, Take(g, doc)).getters, doc);
  }

  lemma StopConserves(cfg: Config, s: State, g: nat)
    requires Conserved(s) && Enabled(cfg, s, Stop(g))
    ensures Conserved(Apply(cfg, s, Stop(g)))
  {
    HeldAfter(cfg, s, Stop(g));
    assert InTransit(Apply(cfg, s, Stop(g))) == InTransit(s);
  }

  lemma SpawnConserves(cfg: Config, s: State)
    requires Conserved(s) && Enabled(cfg, s, Spawn)
    ensures Conserved(Apply(cfg, s, Spawn))
  {
    NewGettersHoldNothing(s.getters, cfg.topics);
  }

  lemma ReceiveConserves(cfg: Config, s: State)
    requires Conserved(s) && Enabled(cfg, s, Receive)
    ensures Conserved(Apply(cfg, s, Receive))
  {
    var s' := Apply(cfg, s, Receive);
    HeadAndTail(s.chan);
    assert multiset(InHand(s'.loop)) == multiset{s.chan[0]} && multiset(InHand(s.loop)) == multiset{};
    assert InTransit(s') == InTransit(s);
  }

  lemma AppendConserves(cfg: Config, s: State)
    requires Conserved(s) && Enabled(cfg, s, Append)
    ensures Conserved(Apply(cfg, s, Append))
  {
    var s' := Apply(cfg, s, Append);
    assert multiset(InHand(s.loop)) == multiset{s.loop.doc} && multiset(InHand(s'.loop)) == multiset{};
    assert multiset(s'.queue) == multiset(s.queue) + multiset{s.loop.doc};
    assert InTransit(s') == InTransit(s);
  }

  lemma AcquireConserves(cfg: Config, s: State)
    requires Conserved(s) && Enabled(cfg, s, Acquire)
    ensures Conserved(Apply(cfg, s, Acquire))
  {
    var s' := Apply(cfg, s, Acquire);
    assert s'.running[..|s.running|] == s.running;
    assert All(s'.running) == All(s.running) + multiset(s.queue);
    assert multiset(InHand(s.loop)) == multiset{} == multiset(InHand(s'.loop)) && multiset(s'.queue) == multiset{};
    assert InTransit(s') == InTransit(s);
  }

  lemma MovedOver(a: multiset<Document>, b: multiset<Document>, x: multiset<Document>, c: multiset<Document>)
    ensures a + (b + x) + c == a + b + (c + x)
  {
  }

  lemma SettledAfterFinish(cfg: Config, s: State, i: nat, ok: bool)
    requires Enabled(cfg, s, Finish(i, ok))
    ensures Settled(Apply(cfg, s, Finish(i, ok))) == Settled(s) + multiset(s.running[i])
  {
  }

  lemma FinishConserves(cfg: Config, s: State, i: nat, ok: bool)
    requires Conserved(s) && Enabled(cfg, s, Finish(i, ok))
    ensures Conserved(Apply(cfg, s, Finish(i, ok)))
  {
    AllSplit(s.running, i);
    SettledAfterFinish(cfg, s, i, ok);
    MovedOver(Held(s.getters) + multiset(s.chan) + multiset(InHand(s.loop)) + multiset(s.queue),
              All(s.running[..i] + s.running[i+1..]), multiset(s.running[i]), Settled(s));
  }

  lemma WaitConserves(cfg: Config, s: State, l: Label)
    requires Conserved(s) && Enabled(cfg, s, l) && (l.Tick? || l.AcquireTick? || l.Timeout?)
    ensures Conserved(Apply(cfg, s, l))
  {
    var s' := Apply(cfg, s, l);
    assert InTransit(s') == InTransit(s) && Settled(s') == Settled(s) && s'.fetched == s.fetched;
  }

  lemma ReceiveKeepsOrder(cfg: Config, s: State)
    requires InOrder(s) && Enabled(cfg, s, Receive)
    ensures InOrder(Apply(cfg, s, Receive))
  {
    var before, doc := Concat(s.handed) + s.queue, [s.chan[0]];
    assert before + [] + doc == before + doc;
  }

  lemma AppendKeepsOrder(cfg: Config, s: State)
    requires InOrder(s) && Enabled(cfg, s, Append)
    ensures InOrder(Apply(cfg, s, Append))
  {
    var all, doc := Concat(s.handed), [s.loop.doc];
    assert all + (s.queue + doc) + [] == all + s.queue + doc;
  }

  lemma AcquireKeepsOrder(cfg: Config, s: State)
    requires InOrder(s) && Enabled(cfg, s, Acquire)
    ensures InOrder(Apply(cfg, s, Acquire))
  {
    var handed' := s.handed + [s.queue];
    assert handed'[..|s.handed|] == s.handed;
    assert Concat(handed') == Concat(s.handed) + s.queue;
    assert Concat(handed') + [] + [] == Concat(s.handed) + s.queue + [];
  }

  lemma StepKeepsOrder(cfg: Config, s: State, l: Label)
    requires InOrder(s) && Enabled(cfg, s, l)
    ensures InOrder(Apply(cfg, s, l))
  {
    match l
    case Receive => ReceiveKeepsOrder(cfg, s);
    case Append => AppendKeepsOrder(cfg, s);
    case Acquire => AcquireKeepsOrder(cfg, s);
    case _ =>
      var s' := Apply(cfg, s, l);
      assert s'.handed == s.handed && s'.queue == s.queue && InHand(s'.loop) == InHand(s.loop)
          && s'.received == s.received;
  }

  lemma StepKeepsBounds(cfg: Config, s: State, l: Label)
    requires Bounded(cfg, s) && Enabled(cfg, s, l)
    ensures Bounded(cfg, Apply(cfg, s, l))
  {
  }

  lemma StepKeepsInv(cfg: Config, s: State, l: Label)
    requires Inv(cfg, s) && Enabled(cfg, s, l)
    ensures Inv(cfg, Apply(cfg, s, l))
  {
    StepKeepsOrder(cfg, s, l);
    StepKeepsBounds(cfg, s, l);
    match l
    case Take(g, doc) => TakeConserves(cfg, s, g, doc);
    case Stop(g) => StopConserves(cfg, s, g);
    case Send(g) => SendConserves(cfg, s, g);
    case Spawn => SpawnConserves(cfg, s);
    case Finish(i, ok) => FinishConserves(cfg, s, i, ok);
    case Receive => ReceiveConserves(cfg, s);
    case Append => AppendConserves(cfg, s);
    case Acquire => AcquireConserves(cfg, s);
    case _ => WaitConserves(cfg, s, l);
  }

  lemma NeitherFetchedNorWritten(cfg: Config, s: State, l: Label)
    requires Enabled(cfg, s, l) && !l.Take? && !l.Finish?
    ensures Apply(cfg, s, l).fetched == s.fetched && Apply(cfg, s, l).written == s.written
  {
  }

  lemma {:induction false} RunKeepsInv(cfg: Config, states: seq<State>, labels: seq<Label>, n: nat)
    requires IsRun(cfg, states, labels) && Inv(cfg, states[0]) && n <= |labels|
    ensures Inv(cfg, states[n])
  {
    if n > 0 {
      RunKeepsInv(cfg, states, labels, n - 1);
      StepKeepsInv(cfg, states[n-1], labels[n-1]);
    }
  }

  lemma InitInv(cfg: Config)
    ensures Inv(cfg, INIT)
  {
  }

  lemma ReachableInv(cfg: Config, s: State)
    requires Reachable(cfg, s)
    ensures Inv(cfg, s)
  {
    var states, labels :| IsRun(cfg, states, labels) && states[0] == INIT && states[|labels|] == s;
    InitInv(cfg);
    RunKeepsInv(cfg, states, labels, |labels|);
  }

  /** Whatever the interleaving, each document taken from the cache, as often as it was taken, is with a getter,
      in the channel, in the loop's hand, in the queue, in a running write, written, or failed. */
  lemma Conservation(cfg: Config, s: State)
    requires Reachable(cfg, s)
    ensures multiset(s.fetched)
         == Held(s.getters) + multiset(s.chan) + multiset(InHand(s.loop)) + multiset(s.queue) + All(s.running)
            + multiset(s.written) + multiset(s.failed)
  {
    ReachableInv(cfg, s);
  }

  /** The batches handed over, one after the other, and then the queue are what the loop received, in order;
      no batch is empty or too long, and the semaphore bounds the writes. */
  lemma Batching(cfg: Config, s: State)
    requires Reachable(cfg, s)
    ensures Concat(s.handed) + s.queue + InHand(s.loop) == s.received
    ensures forall i :: 0 <= i < |s.handed| ==> 1 <= |s.handed[i]| <= cfg.MaxBatch()
    ensures s.loop.AtSelect? ==> |s.queue| < cfg.MaxBatch()
    ensures |s.running| <= cfg.workers && |s.chan| <= cfg.chanCap
  {
    ReachableInv(cfg, s);
  }

  // ---------------------------------------------------------------- getters and hand-overs

  function LimitOf(cfg: Config, topic: string): nat {
    if topic in cfg.limits then cfg.limits[topic] else 0
  }

  /** A getter is for a configured topic, has got at most what one `Get` may return, and has sent it in order so far. */
  ghost predicate GetterInv(cfg: Config, getter: Getter) {
    && getter.topic in cfg.topics && |getter.got| <= LimitOf(cfg, getter.topic)
    && |getter.docs| <= |getter.got| && getter.docs == getter.got[|getter.got|-|getter.docs|..]
    && (getter.fetching ==> getter.docs == getter.got)
  }

  ghost predicate GettersInv(cfg: Config, getters: seq<Getter>) {
    forall g :: 0 <= g < |getters| ==> GetterInv(cfg, getters[g])
  }

  lemma GetterTakes(cfg: Config, getter: Getter, doc: Document)
    requires GetterInv(cfg, getter) && getter.fetching && |getter.docs| < LimitOf(cfg, getter.topic)
    ensures GetterInv(cfg, getter.(docs := getter.docs + [doc], got := getter.got + [doc]))
  {
  }

  lemma GetterSends(cfg: Config, getter: Getter)
    requires GetterInv(cfg, getter) && !getter.fetching && getter.docs != []
    ensures GetterInv(cfg, getter.(docs := getter.docs[1..]))
  {
  }

  lemma OneGetter(cfg: Config, getters: seq<Getter>, g: nat, getter: Getter)
    requires GettersInv(cfg, getters) && g < |getters| && GetterInv(cfg, getter)
    ensures GettersInv(cfg, getters[g := getter])
  {
  }

  lemma StepKeepsGetters(cfg: Config, s: State, l: Label)
    requires GettersInv(cfg, s.getters) && Enabled(cfg, s, l)
    ensures GettersInv(cfg, Apply(cfg, s, l).getters)
  {
    match l
    case Take(g, doc) =>
      var getter := s.getters[g];
      GetterTakes(cfg, getter, doc);
      OneGetter(cfg, s.getters, g, getter.(docs := getter.docs + [doc], got := getter.got + [doc]));
    case Stop(g) => OneGetter(cfg, s.getters, g, s.getters[g].(fetching := false));
    case Send(g) =>
      GetterSends(cfg, s.getters[g]);
      OneGetter(cfg, s.getters, g, s.getters[g].(docs := s.getters[g].docs[1..]));
    case Spawn => NewGettersAreNew(cfg);
    case _ =>
  }

  lemma NewGettersAreNew(cfg: Config)
    ensures GettersInv(cfg, NewGetters(cfg.topics))
  {
  }

  /** In every run each getter sends what it got in the order in which it got it, and gets no more than its limit. */
  lemma {:induction false} GettersKeepOrder(cfg: Config, states: seq<State>, labels: seq<Label>, n: nat)
    requires IsRun(cfg, states, labels) && states[0] == INIT && n <= |labels|
    ensures GettersInv(cfg, states[n].getters)
  {
    if n > 0 {
      GettersKeepOrder(cfg, states, labels, n - 1);
      StepKeepsGetters(cfg, states[n-1], labels[n-1]);
    }
  }

  lemma HandedAfter(cfg: Config, s: State, l: Label)
    requires Enabled(cfg, s, l)
    ensures Apply(cfg, s, l).handed == if l.Acquire? then s.handed + [s.queue] else s.handed
  {
  }

  lemma HandedAt(cfg: Config, states: seq<State>, labels: seq<Label>, i: nat)
    requires IsRun(cfg, states, labels) && i < |labels|
    ensures states[i+1].handed == if labels[i].Acquire? then states[i].handed + [states[i].queue] else states[i].handed
    ensures labels[i].Acquire? ==> states[i].loop.Handing?
  {
    HandedAfter(cfg, states[i], labels[i]);
  }

  /** The step that handed over a batch. */
  lemma {:induction false} AcquiredAt(cfg: Config, states: seq<State>, labels: seq<Label>, n: nat, b: nat)
    returns (m: nat)
    requires IsRun(cfg, states, labels) && states[0] == INIT && n <= |labels| && b < |states[n].handed|
    ensures m < n && labels[m].Acquire? && states[m].loop.Handing? && |states[m].handed| == b
    ensures states[n].handed[b] == states[m].queue
  {
    HandedAt(cfg, states, labels, n - 1);
    if b < |states[n-1].handed| {
      m := AcquiredAt(cfg, states, labels, n - 1, b);
    } else {
      m := n - 1;
    }
  }

  lemma HandingAfter(cfg: Config, s: State, l: Label)
    requires Bounded(cfg, s) && Enabled(cfg, s, l) && Apply(cfg, s, l).loop.Handing?
    ensures var queue := Apply(cfg, s, l).queue;
            if l.Timeout? then 1 <= |queue| < cfg.queueSize
            else if l.Append? then |queue| == cfg.MaxBatch() >= cfg.queueSize
            else s.loop.Handing? && queue == s.queue
  {
  }

  lemma HandingAt(cfg: Config, states: seq<State>, labels: seq<Label>, i: nat)
    requires IsRun(cfg, states, labels) && states[0] == INIT && i < |labels| && states[i+1].loop.Handing?
    ensures var queue := states[i+1].queue;
            if labels[i].Timeout? then |queue| < cfg.queueSize
            else if labels[i].Append? then |queue| == cfg.MaxBatch() >= cfg.queueSize
            else states[i].loop.Handing? && queue == states[i].queue
  {
    RunKeepsInv(cfg, states, labels, i);
    assert Enabled(cfg, states[i], labels[i]) && states[i+1] == Apply(cfg, states[i], labels[i]);
    HandingAfter(cfg, states[i], labels[i]);
  }

  /** The step from which on the loop has been waiting to hand over. */
  lemma {:induction false} WaitingSince(cfg: Config, states: seq<State>, labels: seq<Label>, m: nat) returns (t: nat)
    requires IsRun(cfg, states, labels) && states[0] == INIT && m <= |labels| && states[m].loop.Handing?
    ensures t < m && (labels[t].Timeout? || labels[t].Append?)
    ensures forall i :: t < i < m ==> !labels[i].Append? && !labels[i].Timeout?
    ensures labels[t].Timeout? ==> |states[m].queue| < cfg.queueSize
    ensures labels[t].Append? ==> |states[m].queue| == cfg.MaxBatch() >= cfg.queueSize
  {
    HandingAt(cfg, states, labels, m - 1);
    if labels[m-1].Timeout? || labels[m-1].Append? {
      t := m - 1;
    } else {
      t := WaitingSince(cfg, states, labels, m - 1);
    }
  }

  /** A batch is handed over either by the timeout, and then it has fewer than `queueSize` documents, or by the document
      that fills the queue, and then it has as many as a batch can have. */
  lemma HandedWhen(cfg: Config, states: seq<State>, labels: seq<Label>, n: nat, b: nat) returns (t: nat, m: nat)
    requires IsRun(cfg, states, labels) && states[0] == INIT && n <= |labels| && b < |states[n].handed|
    ensures t < m < n && labels[m].Acquire? && |states[m].handed| == b && states[n].handed[b] == states[m].queue
    ensures labels[t].Timeout? || labels[t].Append?
    ensures forall i :: t < i < m ==> !labels[i].Append? && !labels[i].Timeout?
    ensures labels[t].Timeout? <==> |states[n].handed[b]| < cfg.queueSize
    ensures labels[t].Append? <==> |states[n].handed[b]| == cfg.MaxBatch()
  {
    m := AcquiredAt(cfg, states, labels, n, b);
    t := WaitingSince(cfg, states, labels, m);
  }

  // ---------------------------------------------------------------- progress

  /** A step other than asking the cache for more. */
  predicate Quiet(l: Label) {
    !l.Tick? && !l.Take?
  }

  function Fetching(getters: seq<Getter>): nat {
    if getters == [] then 0
    else Fetching(getters[..|getters|-1]) + if getters[|getters|-1].fetching then 1 else 0
  }

  function LoopWeight(cfg: Config, loop: Loop): nat {
    match loop
    case AtSelect => 1
    case TickWait => |cfg.topics| + 3
    case Received(_) => 5
    case Handing => 0
  }

  /** A goroutine that will start getters weighs more than all of them. */
  function SpawnWeight(cfg: Config, spawners: nat): nat {
    if spawners == 0 then 0 else |cfg.topics| + 1 + SpawnWeight(cfg, spawners - 1)
  }

  /** Each step takes a document or a goroutine nearer to its end. */
  function Measure(cfg: Config, s: State): nat {
    6 * |Held(s.getters)| + Fetching(s.getters) + 5 * |s.chan| + 3 * |s.queue| + |All(s.running)|
    + SpawnWeight(cfg, s.spawners) + LoopWeight(cfg, s.loop)
  }

  lemma {:induction false} FetchingUpdate(getters: seq<Getter>, g: nat, getter: Getter)
    requires g < |getters|
    ensures Fetching(getters[g := getter]) + (if getters[g].fetching then 1 else 0)
         == Fetching(getters) + if getter.fetching then 1 else 0
  {
    var n := |getters| - 1;
    if g < n {
      FetchingUpdate(getters[..n], g, getter);
      assert getters[g := getter][..n] == getters[..n][g := getter];
    } else {
      assert getters[g := getter][..n] == getters[..n];
    }
  }

  lemma {:induction false} FetchingNew(getters: seq<Getter>, topics: seq<string>)
    ensures Fetching(getters + NewGetters(topics)) == Fetching(getters) + |topics|
  {
    if topics == [] {
      assert getters + NewGetters(topics) == getters;
    } else {
      var n := |topics| - 1;
      FetchingNew(getters, topics[..n]);
      assert (getters + NewGetters(topics))[..|getters| + n] == getters + NewGetters(topics[..n]);
    }
  }

  lemma GetterStepDecreases(cfg: Config, s: State, l: Label)
    requires Enabled(cfg, s, l) && (l.Stop? || l.Send?)
    ensures Measure(cfg, Apply(cfg, s, l)) < Measure(cfg, s)
  {
    HeldAfter(cfg, s, l);
    FetchingUpdate(s.getters, l.getter, Apply(cfg, s, l).getters[l.getter]);
  }

  lemma SpawnDecreases(cfg: Config, s: State)
    requires Enabled(cfg, s, Spawn)
    ensures Measure(cfg, Apply(cfg, s, Spawn)) < Measure(cfg, s)
  {
    NewGettersHoldNothing(s.getters, cfg.topics);
    FetchingNew(s.getters, cfg.topics);
  }

  lemma PermitStepDecreases(cfg: Config, s: State, l: Label)
    requires Bounded(cfg, s) && Enabled(cfg, s, l) && (l.AcquireTick? || l.Acquire? || l.Finish?)
    ensures Measure(cfg, Apply(cfg, s, l)) < Measure(cfg, s)
  {
    var s' := Apply(cfg, s, l);
    if l.Acquire? {
      assert s'.running[..|s.running|] == s.running;
      assert |All(s'.running)| == |All(s.running)| + |s.queue|;
    } else if l.Finish? {
      AllSplit(s.running, l.write);
      assert |All(s.running)| == |All(s'.running)| + |s.running[l.write]|;
    }
  }

  lemma QuietStepDecreases(cfg: Config, s: State, l: Label)
    requires Inv(cfg, s) && Enabled(cfg, s, l) && Quiet(l)
    ensures Measure(cfg, Apply(cfg, s, l)) < Measure(cfg, s)
    ensures Apply(cfg, s, l).fetched == s.fetched
  {
    match l
    case Stop(_) => GetterStepDecreases(cfg, s, l);
    case Send(_) => GetterStepDecreases(cfg, s, l);
    case Spawn => SpawnDecreases(cfg, s);
    case AcquireTick => PermitStepDecreases(cfg, s, l);
    case Acquire => PermitStepDecreases(cfg, s, l);
    case Finish(_, _) => PermitStepDecreases(cfg, s, l);
    case _ =>
  }

  /** Nothing in transit, and the loop waits for something to do. */
  ghost predicate Drained(s: State) {
    && s.loop.AtSelect? && s.spawners == 0 && s.chan == [] && s.queue == [] && s.running == []
    && forall g :: 0 <= g < |s.getters| ==> !s.getters[g].fetching && s.getters[g].docs == []
  }

  /** No deadlock: with a permit to give out, some goroutine can move until everything is settled,
      even with the channel full and the loop waiting for the semaphore. */
  lemma Progress(cfg: Config, s: State) returns (l: Label)
    requires Inv(cfg, s) && cfg.Valid() && cfg.workers >= 1 && !Drained(s)
    ensures Quiet(l) && Enabled(cfg, s, l)
  {
    if s.loop.Received? {
      l := Append;
    } else if s.spawners > 0 {
      l := Spawn;
    } else if s.running != [] {
      l := Finish(0, true);
    } else if s.loop.TickWait? {
      l := AcquireTick;
    } else if s.loop.Handing? {
      l := Acquire;
    } else if s.chan != [] {
      l := Receive;
    } else if s.queue != [] {
      l := Timeout;
    } else {
      var g :| 0 <= g < |s.getters| && (s.getters[g].fetching || s.getters[g].docs != []);
      l := if s.getters[g].fetching then Stop(g) else Send(g);
    }
  }

  /** Once fetching stops, only so many steps are left, in whatever order they are taken. */
  lemma {:induction false} QuietRunIsBounded(cfg: Config, states: seq<State>, labels: seq<Label>, n: nat)
    requires IsRun(cfg, states, labels) && Inv(cfg, states[0]) && n <= |labels|
    requires forall i :: 0 <= i < |labels| ==> Quiet(labels[i])
    ensures n + Measure(cfg, states[n]) <= Measure(cfg, states[0])
    ensures states[n].fetched == states[0].fetched
  {
    if n > 0 {
      QuietRunIsBounded(cfg, states, labels, n - 1);
      QuietStepOfRun(cfg, states, labels, n - 1);
    }
  }

  lemma QuietStepOfRun(cfg: Config, states: seq<State>, labels: seq<Label>, n: nat)
    requires IsRun(cfg, states, labels) && Inv(cfg, states[0]) && n < |labels| && Quiet(labels[n])
    ensures Measure(cfg, states[n+1]) < Measure(cfg, states[n]) && states[n+1].fetched == states[n].fetched
  {
    RunKeepsInv(cfg, states, labels, n);
    QuietStepDecreases(cfg, states[n], labels[n]);
  }

  lemma {:induction false} NothingHeld(getters: seq<Getter>)
    ensures Held(getters) == multiset{} <==> forall g :: 0 <= g < |getters| ==> getters[g].docs == []
  {
    if getters != [] {
      var n := |getters| - 1;
      NothingHeld(getters[..n]);
      assert Held(getters) == multiset{} <==> |Held(getters[..n])| + |getters[n].docs| == 0;
    }
  }

  /** And when none is left, every document that was fetched is written or failed. */
  lemma QuietRunDrains(cfg: Config, states: seq<State>, labels: seq<Label>)
    requires IsRun(cfg, states, labels) && Reachable(cfg, states[0]) && cfg.Valid() && cfg.workers >= 1
    requires forall i :: 0 <= i < |labels| ==> Quiet(labels[i])
    requires forall l :: Quiet(l) ==> !Enabled(cfg, states[|labels|], l)
    ensures |labels| <= Measure(cfg, states[0])
    ensures multiset(states[0].fetched) == Settled(states[|labels|])
  {
    ReachableInv(cfg, states[0]);
    QuietRunIsBounded(cfg, states, labels, |labels|);
    RunKeepsInv(cfg, states, labels, |labels|);
    var last := states[|labels|];
    assert Drained(last) by {
      if !Drained(last) { var l := Progress(cfg, last); }
    }
    NothingHeld(last.getters);
  }

  // ---------------------------------------------------------------- closing

  /** `Close` stops waiting: it has found the channel empty at step `i`, and then the queue at step `j`. */
  ghost predicate CloseGoesOn(states: seq<State>, i: nat, j: nat) {
    i <= j < |states| && states[i].chan == [] && states[j].queue == []
  }

  lemma SettledWhen(cfg: Config, s: State)
    requires Reachable(cfg, s) && s.queue == []
    ensures multiset(s.fetched) == Settled(s)
       <==> s.chan == [] && !s.loop.Received? && s.running == []
            && forall g :: 0 <= g < |s.getters| ==> s.getters[g].docs == []
  {
    ReachableInv(cfg, s);
    NothingHeld(s.getters);
    if multiset(s.fetched) == Settled(s) {
      assert |Held(s.getters)| + |s.chan| + |InHand(s.loop)| + |All(s.running)| == 0 by {
        assert |InTransit(s) + Settled(s)| == |Settled(s)|;
      }
    }
  }

  function Net(l: Label): int {
    if l.Send? then 1 else if l.Receive? then -1 else 0
  }

  /** How many of these steps put a document into the channel, less those that took one out. */
  function NetSent(labels: seq<Label>): int {
    if labels == [] then 0 else NetSent(labels[..|labels|-1]) + Net(labels[|labels|-1])
  }

  lemma ChanAt(cfg: Config, states: seq<State>, labels: seq<Label>, i: nat)
    requires IsRun(cfg, states, labels) && i < |labels|
    ensures |states[i+1].chan| == |states[i].chan| + Net(labels[i])
  {
    assert Enabled(cfg, states[i], labels[i]);
  }

  lemma {:induction false} SumOfNet(sizes: seq<int>, labels: seq<Label>, i: nat, j: nat)
    requires i <= j <= |labels| < |sizes|
    requires forall k :: 0 <= k < |labels| ==> sizes[k+1] == sizes[k] + Net(labels[k])
    ensures sizes[j] == sizes[i] + NetSent(labels[i..j])
    decreases j
  {
    if i < j {
      SumOfNet(sizes, labels, i, j - 1);
      assert labels[i..j][..j-i-1] == labels[i..j-1];
      assert sizes[j-1+1] == sizes[j-1] + Net(labels[j-1]);
    }
  }

  lemma ChanHasNetSent(cfg: Config, states: seq<State>, labels: seq<Label>, i: nat, j: nat)
    requires IsRun(cfg, states, labels) && i <= j <= |labels|
    ensures |states[j].chan| == |states[i].chan| + NetSent(labels[i..j])
  {
    var sizes := seq(|states|, k requires 0 <= k < |states| => |states[k].chan|);
    forall k | 0 <= k < |labels| ensures sizes[k+1] == sizes[k] + Net(labels[k]) {
      ChanAt(cfg, states, labels, k);
    }
    SumOfNet(sizes, labels, i, j);
  }

  lemma ReachableAt(cfg: Config, states: seq<State>, labels: seq<Label>, n: nat)
    requires IsRun(cfg, states, labels) && states[0] == INIT && n <= |labels|
    ensures Reachable(cfg, states[n])
  {
    assert IsRun(cfg, states[..n+1], labels[..n]);
    assert states[..n+1][|labels[..n]|] == states[n];
  }

  /** When `Close` goes on, everything fetched is settled exactly if the loop has no document in hand, no getter holds
      one, no write is running, and the channel, seen empty before, has received back all that was sent on it since:
      it looks at none of these. */
  lemma CloseIsCompleteWhen(cfg: Config, states: seq<State>, labels: seq<Label>, i: nat, j: nat)
    requires IsRun(cfg, states, labels) && states[0] == INIT && CloseGoesOn(states, i, j)
    ensures var s := states[j];
            multiset(s.fetched) == Settled(s)
            <==> NetSent(labels[i..j]) == 0 && !s.loop.Received? && s.running == []
                 && forall g :: 0 <= g < |s.getters| ==> s.getters[g].docs == []
  {
    ReachableAt(cfg, states, labels, j);
    SettledWhen(cfg, states[j]);
    ChanHasNetSent(cfg, states, labels, i, j);
  }

  /** A getter has just taken a document. */
  lemma JustTaken(cfg: Config, doc: Document) returns (states: seq<State>, labels: seq<Label>)
    requires cfg.Valid() && cfg.workers >= 1 && cfg.topics != [] && cfg.limits[cfg.topics[0]] >= 1
    ensures IsRun(cfg, states, labels) && states[0] == INIT
    ensures var s := states[|labels|];
            && s == INIT.(getters := s.getters, fetched := [doc])
            && s.getters != [] && s.getters[0].docs == [doc] && s.getters[0].fetching
  {
    labels := [Tick, AcquireTick, Spawn, Take(0, doc)];
    var s1 := Apply(cfg, INIT, Tick);
    var s2 := Apply(cfg, s1, AcquireTick);
    var s3 := Apply(cfg, s2, Spawn);
    states := [INIT, s1, s2, s3, Apply(cfg, s3, Take(0, doc))];
  }

  /** And that does happen: a document just fetched is seen neither in the channel nor in the queue. */
  lemma CloseMayForsakeDocument(cfg: Config, doc: Document) returns (states: seq<State>, labels: seq<Label>)
    requires cfg.Valid() && cfg.workers >= 1 && cfg.topics != [] && cfg.limits[cfg.topics[0]] >= 1
    ensures IsRun(cfg, states, labels) && states[0] == INIT && CloseGoesOn(states, |labels|, |labels|)
    ensures doc in states[|labels|].fetched && doc !in Settled(states[|labels|])
  {
    states, labels := JustTaken(cfg, doc);
  }

  /** Or it is sent on the channel after that was seen empty and before the queue is looked at: then no getter holds it,
      the loop has nothing in hand, no write is running, and still it is not settled. */
  lemma CloseMayBeOvertaken(cfg: Config, doc: Document) returns (states: seq<State>, labels: seq<Label>, i: nat)
    requires cfg.Valid() && cfg.workers >= 1 && cfg.topics != [] && cfg.limits[cfg.topics[0]] >= 1
    ensures IsRun(cfg, states, labels) && states[0] == INIT && CloseGoesOn(states, i, |labels|)
    ensures var s := states[|labels|];
            && s.chan == [doc] && doc in s.fetched && doc !in Settled(s)
            && !s.loop.Received? && s.running == [] && s.getters != [] && s.getters[0].docs == []
  {
    var before, steps := JustTaken(cfg, doc);
    i := |steps|;
    var s5 := Apply(cfg, before[i], Stop(0));
    var s6 := Apply(cfg, s5, Send(0));
    states, labels := before + [s5, s6], steps + [Stop(0), Send(0)];
    assert s6.chan == [] + [doc];
    forall k | 0 <= k < |labels|
      ensures Enabled(cfg, states[k], labels[k]) && states[k+1] == Apply(cfg, states[k], labels[k])
    {
      if k < i { assert Enabled(cfg, before[k], steps[k]) && before[k+1] == Apply(cfg, before[k], steps[k]); }
    }
  }

  // ---------------------------------------------------------------- the loop's own code

  /** After a step that needs a permit to go on: with one free, the loop goes on at once, else it waits for one. */
  function OnceFree(cfg: Config, s: State, l: Label): State {
    if Enabled(cfg, s, l) then Apply(cfg, s, l) else s
  }

  /** The variables of the loop and of its goroutines; `loop` says where the loop is, and what it is waiting for. */
  class PersistLoop {
    const cfg: Config
    var spawners: nat
    var getters: seq<Getter>
    var docsChan: seq<Document>
    var docQueue: seq<Document>
    var running: seq<seq<Document>>
    var loop: Loop
    ghost var history: State

    ghost function Model(): State
      reads this
    {
      history.(spawners := spawners, getters := getters, chan := docsChan, loop := loop, queue := docQueue,
               running := running)
    }

    constructor (cfg: Config)
      ensures Model() == INIT && this.cfg == cfg
    {
      this.cfg := cfg;
      spawners, getters, docsChan, docQueue, running, loop, history := 0, [], [], [], [], AtSelect, INIT;
    }

    /** These documents have gone to a new write if a permit was free; else the loop waits with them in the queue. */
    ghost predicate HandsOver(docs: seq<Document>, before: seq<seq<Document>>, free: bool)
      reads this
    {
      if free then docQueue == [] && running == before + [docs] && loop.AtSelect?
      else docQueue == docs && running == before && loop.Handing?
    }

    /** Copies the queue and starts a goroutine that writes the copy; without a permit it waits before that. */
    method PutDocumentsIntoDB()
      modifies this
      ensures Model() == OnceFree(cfg, old(Model()).(loop := Handing), Acquire)
      ensures HandsOver(old(docQueue), old(running), old(spawners) + |old(running)| < cfg.workers)
      ensures docsChan == old(docsChan) && getters == old(getters) && spawners == old(spawners)
    {
      var docs := docQueue;
      var dstDocs := new Document[|docs|](i requires 0 <= i < |docs| => docs[i]);
      assert dstDocs[..] == docs;
      if spawners + |running| >= cfg.workers {
        loop := Handing;
        return;
      }
      running := running + [dstDocs[..]];
      history := history.(handed := history.handed + [docQueue]);
      docQueue := [];
      loop := AtSelect;
    }

    /** A document comes off the channel; the queue is handed over if that fills it. */
    method OnDocument()
      requires loop.AtSelect? && docsChan != []
      modifies this
      ensures Model() == OnceFree(cfg, Apply(cfg, Apply(cfg, old(Model()), Receive), Append), Acquire)
      ensures docsChan == old(docsChan)[1..] && getters == old(getters)
      ensures |old(docQueue)| + 1 < cfg.queueSize ==>
                docQueue == old(docQueue) + [old(docsChan)[0]] && running == old(running) && loop.AtSelect?
      ensures |old(docQueue)| + 1 >= cfg.queueSize ==>
                HandsOver(old(docQueue) + [old(docsChan)[0]], old(running),
                          old(spawners) + |old(running)| < cfg.workers)
    {
      var doc := docsChan[0];
      docsChan := docsChan[1..];
      history := history.(received := history.received + [doc]);
      docQueue := docQueue + [doc];
      if |docQueue| < cfg.queueSize {
        return;
      }
      PutDocumentsIntoDB();
    }

    /** The timeout hands over what there is. */
    method OnTimeout()
      requires loop.AtSelect?
      modifies this
      ensures Model() == if old(docQueue) == [] then old(Model())
                         else OnceFree(cfg, Apply(cfg, old(Model()), Timeout), Acquire)
      ensures docsChan == old(docsChan) && getters == old(getters)
      ensures old(docQueue) == [] ==> docQueue == [] && running == old(running) && loop.AtSelect?
      ensures old(docQueue) != [] ==>
                HandsOver(old(docQueue), old(running), old(spawners) + |old(running)| < cfg.workers)
    {
      if |docQueue| == 0 {
        return;
      }
      PutDocumentsIntoDB();
    }

    /** The ticker starts, under a permit, a getter for each period; without a permit it waits before that. */
    method OnTick()
      requires loop.AtSelect?
      modifies this
      ensures var s := Apply(cfg, old(Model()), Tick);
              Model() == if Enabled(cfg, s, AcquireTick) then Apply(cfg, Apply(cfg, s, AcquireTick), Spawn) else s
      ensures docsChan == old(docsChan) && docQueue == old(docQueue) && running == old(running)
      ensures if old(spawners) + |old(running)| < cfg.workers then loop.AtSelect? && Started(old(getters))
              else loop.TickWait? && getters == old(getters)
    {
      if spawners + |running| >= cfg.workers {
        loop := TickWait;
        return;
      }
      StartGetters();
    }

    /** Each configured topic has a new getter, which has got nothing yet. */
    ghost predicate Started(before: seq<Getter>)
      reads this
    {
      && |getters| == |before| + |cfg.topics| && before <= getters
      && forall i :: 0 <= i < |cfg.topics| ==> getters[|before|..][i] == Getter(cfg.topics[i], true, [], [])
    }

    method StartGetters()
      modifies this
      ensures Model() == old(Model()).(loop := AtSelect, getters := old(getters) + NewGetters(cfg.topics))
      ensures Started(old(getters))
    {
      loop := AtSelect;
      for i := 0 to |cfg.topics|
        invariant Model() == old(Model()).(loop := AtSelect, getters := old(getters) + NewGetters(cfg.topics[..i]))
      {
        getters := getters + [Getter(cfg.topics[i], true, [], [])];
      }
      assert cfg.topics[..|cfg.topics|] == cfg.topics;
    }

    /** A permit that the loop has been waiting for becomes free. */
    method OnPermit()
      requires loop.TickWait? || loop.Handing?
      requires spawners + |running| < cfg.workers
      modifies this
      ensures Model() == if old(loop).Handing? then Apply(cfg, old(Model()), Acquire)
                         else Apply(cfg, Apply(cfg, old(Model()), AcquireTick), Spawn)
      ensures if old(loop).Handing? then HandsOver(old(docQueue), old(running), true)
              else loop.AtSelect? && Started(old(getters)) && docQueue == old(docQueue)
    {
      if loop.Handing? {
        PutDocumentsIntoDB();
      } else {
        StartGetters();
      }
    }
  }
}
