/** How a consumer's channel for a topic comes to be, and who uses which. Whoever finds none makes one, but looks
outside the lock and makes it inside, so several may be made. `Get` and the sender look again, and keep to the channel
found. `Kafka` takes looking, making and using as one step; this module takes them apart, for one consumer and topic. */
module ChannelCreation {
  import opened Wrappers
  import opened Documents

  /** A call of `Get`: the channel that it found, and how many documents it may still take. */
  datatype Getter = Getter(channel: nat, left: int)

  /** A channel, and the history of what was sent on it and taken from it. */
  datatype Channel = Channel(docs: seq<Document>, sent: seq<Document>, taken: seq<Document>)

  /** All channels ever made and which of them is the one in the map; how many goroutines have found none and not yet
      made theirs; all calls of `Get`; the channel that the sender has found; and what has been sent and returned. */
  datatype State = State(chans: seq<Channel>, current: Option<nat>, creators: nat, getters: seq<Getter>,
                         sender: Option<nat>, sent: seq<Document>, delivered: seq<Document>)

  const INIT := State([], None, 0, [], None, [], [])

  datatype Label =
    | FindNone
    | Make
    | Look(count: int)
    | LookSend
    | Send(doc: Document)
    | Take(getter: nat)
    | Return(getter: nat)

  predicate Enabled(limit: nat, s: State, l: Label) {
    match l
    case FindNone => s.current.None?
    case Make => s.creators > 0
    case Look(_) => s.current.Some?
    case LookSend => s.current.Some? && s.sender.None?
    case Send(_) => s.sender.Some? && s.sender.value < |s.chans| && |s.chans[s.sender.value].docs| < limit
    case Take(g) =>
      && g < |s.getters| && s.getters[g].left > 0
      && s.getters[g].channel < |s.chans| && s.chans[s.getters[g].channel].docs != []
    case Return(g) =>
      && g < |s.getters| && s.getters[g].left > 0
      && s.getters[g].channel < |s.chans| && s.chans[s.getters[g].channel].docs == []
  }

  function Apply(limit: nat, s: State, l: Label): State
    requires Enabled(limit, s, l)
  {
    match l
    case FindNone => s.(creators := s.creators + 1)
    case Make =>
      s.(creators := s.creators - 1, chans := s.chans + [Channel([], [], [])], current := Some(|s.chans|))
    case Look(count) => s.(getters := s.getters + [Getter(s.current.value, count)])
    case LookSend => s.(sender := s.current)
    case Send(doc) =>
      var k := s.sender.value;
      s.(chans := s.chans[k := SentOne(s.chans[k], doc)], sender := None, sent := s.sent + [doc])
    case Take(g) =>
      var getter := s.getters[g];
      var k := getter.channel;
      s.(getters := s.getters[g := getter.(left := getter.left - 1)], chans := s.chans[k := TakenOne(s.chans[k])],
         delivered := s.delivered + [s.chans[k].docs[0]])
    case Return(g) => s.(getters := s.getters[g := s.getters[g].(left := 0)])
  }

  function SentOne(c: Channel, doc: Document): Channel {
    c.(docs := c.docs + [doc], sent := c.sent + [doc])
  }

  function TakenOne(c: Channel): Channel
    requires c.docs != []
  {
    c.(docs := c.docs[1..], taken := c.taken + [c.docs[0]])
  }

  /** Each label takes one state to the next. */
  ghost predicate Steps(limit: nat, states: seq<State>, labels: seq<Label>) {
    && |states| == |labels| + 1
    && forall i :: 0 <= i < |labels| ==>
         Enabled(limit, states[i], labels[i]) && states[i+1] == Apply(limit, states[i], labels[i])
  }

  ghost predicate IsRun(limit: nat, states: seq<State>, labels: seq<Label>) {
    |states| == |labels| + 1 && states[0] == INIT && Steps(limit, states, labels)
  }

  // ---------------------------------------------------------------- what every run keeps

  /** What was sent on the channels, one channel after the other. */
  function AllSent(chans: seq<Channel>): seq<Document> {
    if chans == [] then [] else AllSent(chans[..|chans|-1]) + chans[|chans|-1].sent
  }

  function AllTaken(chans: seq<Channel>): seq<Document> {
    if chans == [] then [] else AllTaken(chans[..|chans|-1]) + chans[|chans|-1].taken
  }

  function AllQueued(chans: seq<Channel>): seq<Document> {
    if chans == [] then [] else AllQueued(chans[..|chans|-1]) + chans[|chans|-1].docs
  }

  ghost predicate Fifo(limit: nat, c: Channel) {
    c.taken + c.docs == c.sent && |c.docs| <= limit
  }

  ghost predicate FifoAll(limit: nat, chans: seq<Channel>) {
    forall k :: 0 <= k < |chans| ==> Fifo(limit, chans[k])
  }

  /** Nothing has been sent on the channels behind k. */
  ghost predicate UnusedBehind(chans: seq<Channel>, k: nat) {
    forall j :: k < j < |chans| ==> chans[j].sent == []
  }

  /** The channel in the map is the newest; nobody has found one that is newer. */
  ghost predicate Found(s: State) {
    && s.current == (if s.chans == [] then None else Some(|s.chans| - 1))
    && (forall g :: 0 <= g < |s.getters| ==> s.getters[g].channel < |s.chans|)
    && (s.sender.Some? ==> s.sender.value < |s.chans| && UnusedBehind(s.chans, s.sender.value))
  }

  ghost predicate Inv(limit: nat, s: State) {
    && Found(s) && FifoAll(limit, s.chans)
    && s.sent == AllSent(s.chans) && multiset(s.delivered) == multiset(AllTaken(s.chans))
  }

  lemma {:induction false} AllSentAfter(chans: seq<Channel>, k: nat, doc: Document)
    requires k < |chans| && UnusedBehind(chans, k)
    ensures AllSent(chans[k := SentOne(chans[k], doc)]) == AllSent(chans) + [doc]
    ensures AllTaken(chans[k := SentOne(chans[k], doc)]) == AllTaken(chans)
  {
    var n := |chans| - 1;
    var chans' := chans[k := SentOne(chans[k], doc)];
    if k < n {
      AllSentAfter(chans[..n], k, doc);
      assert chans'[..n] == chans[..n][k := SentOne(chans[k], doc)];
      assert chans[n].sent == [];
    } else {
      assert chans'[..n] == chans[..n];
    }
  }

  lemma {:induction false} AllSentAfterTake(chans: seq<Channel>, k: nat)
    requires k < |chans| && chans[k].docs != []
    ensures AllSent(chans[k := TakenOne(chans[k])]) == AllSent(chans)
  {
    var n := |chans| - 1;
    var chans' := chans[k := TakenOne(chans[k])];
    if k < n {
      AllSentAfterTake(chans[..n], k);
      assert chans'[..n] == chans[..n][k := TakenOne(chans[k])];
    } else {
      assert chans'[..n] == chans[..n];
    }
  }

  lemma FifoAfter(limit: nat, chans: seq<Channel>, k: nat, c: Channel)
    requires FifoAll(limit, chans) && k < |chans| && Fifo(limit, c)
    ensures FifoAll(limit, chans[k := c])
  {
  }

  lemma FifoAfterSend(limit: nat, chans: seq<Channel>, k: nat, doc: Document)
    requires FifoAll(limit, chans) && k < |chans| && |chans[k].docs| < limit
    ensures FifoAll(limit, chans[k := SentOne(chans[k], doc)])
  {
    var c := chans[k];
    assert Fifo(limit, c);
    assert c.taken + (c.docs + [doc]) == c.taken + c.docs + [doc];
    FifoAfter(limit, chans, k, SentOne(c, doc));
  }

  lemma FifoAfterTake(limit: nat, chans: seq<Channel>, k: nat)
    requires FifoAll(limit, chans) && k < |chans| && chans[k].docs != []
    ensures FifoAll(limit, chans[k := TakenOne(chans[k])])
  {
    var c := chans[k];
    assert Fifo(limit, c);
    assert c.docs == [c.docs[0]] + c.docs[1..];
    FifoAfter(limit, chans, k, TakenOne(c));
  }

  lemma SendKeepsFound(limit: nat, s: State, doc: Document)
    requires Found(s) && Enabled(limit, s, Send(doc))
    ensures Found(Apply(limit, s, Send(doc)))
  {
  }

  lemma TakeKeepsFound(limit: nat, s: State, g: nat)
    requires Found(s) && Enabled(limit, s, Take(g))
    ensures Found(Apply(limit, s, Take(g)))
  {
  }

  lemma SendKeepsInv(limit: nat, s: State, doc: Document)
    requires Inv(limit, s) && Enabled(limit, s, Send(doc))
    ensures Inv(limit, Apply(limit, s, Send(doc)))
  {
    SendKeepsFound(limit, s, doc);
    AllSentAfter(s.chans, s.sender.value, doc);
    FifoAfterSend(limit, s.chans, s.sender.value, doc);
  }

  lemma TakeKeepsInv(limit: nat, s: State, g: nat)
    requires Inv(limit, s) && Enabled(limit, s, Take(g))
    ensures Inv(limit, Apply(limit, s, Take(g)))
  {
    var k := s.getters[g].channel;
    TakeKeepsFound(limit, s, g);
    AllSentAfterTake(s.chans, k);
    AllTakenAfter(s.chans, k);
    FifoAfterTake(limit, s.chans, k);
  }

  lemma MakeKeepsFound(limit: nat, s: State)
    requires Found(s) && Enabled(limit, s, Make)
    ensures Found(Apply(limit, s, Make))
  {
  }

  lemma MakeKeepsFifo(limit: nat, chans: seq<Channel>)
    requires FifoAll(limit, chans)
    ensures FifoAll(limit, chans + [Channel([], [], [])])
  {
  }

  lemma MakeKeepsInv(limit: nat, s: State)
    requires Inv(limit, s) && Enabled(limit, s, Make)
    ensures Inv(limit, Apply(limit, s, Make))
  {
    MakeKeepsFound(limit, s);
    MakeKeepsFifo(limit, s.chans);
    assert Apply(limit, s, Make).chans[..|s.chans|] == s.chans;
  }

  lemma StepKeepsInv(limit: nat, s: State, l: Label)
    requires Inv(limit, s) && Enabled(limit, s, l)
    ensures Inv(limit, Apply(limit, s, l))
  {
    match l
    case Make => MakeKeepsInv(limit, s);
    case Send(doc) => SendKeepsInv(limit, s, doc);
    case Take(g) => TakeKeepsInv(limit, s, g);
    case _ =>
  }

  lemma {:induction false} StepsKeepInv(limit: nat, states: seq<State>, labels: seq<Label>, n: nat)
    requires Steps(limit, states, labels) && Inv(limit, states[0]) && n <= |labels|
    ensures Inv(limit, states[n])
  {
    if n > 0 {
      StepsKeepInv(limit, states, labels, n - 1);
      StepKeepsInv(limit, states[n-1], labels[n-1]);
    }
  }

  lemma {:induction false} SentIsTakenAndQueued(limit: nat, chans: seq<Channel>)
    requires FifoAll(limit, chans)
    ensures multiset(AllSent(chans)) == multiset(AllTaken(chans)) + multiset(AllQueued(chans))
  {
    if chans != [] {
      var c := chans[|chans|-1];
      SentIsTakenAndQueued(limit, chans[..|chans|-1]);
      assert multiset(c.sent) == multiset(c.taken) + multiset(c.docs) by { assert Fifo(limit, c); }
    }
  }

  /** However many channels are made: what was sent is what was returned and what is in all of them, and each channel
      gives back in order what was sent on it. */
  lemma Conservation(limit: nat, states: seq<State>, labels: seq<Label>, n: nat)
    requires IsRun(limit, states, labels) && n <= |labels|
    ensures var s := states[n];
            && multiset(s.sent) == multiset(s.delivered) + multiset(AllQueued(s.chans)) && s.sent == AllSent(s.chans)
            && forall k :: 0 <= k < |s.chans| ==> s.chans[k].taken + s.chans[k].docs == s.chans[k].sent
  {
    StepsKeepInv(limit, states, labels, n);
    SentIsTakenAndQueued(limit, states[n].chans);
    forall k | 0 <= k < |states[n].chans|
      ensures states[n].chans[k].taken + states[n].chans[k].docs == states[n].chans[k].sent
    {
      assert Fifo(limit, states[n].chans[k]);
    }
  }

  // ---------------------------------------------------------------- what one call does

  /** How many documents the steps gave to call g. */
  function TakesOf(labels: seq<Label>, g: nat): nat {
    if labels == [] then 0
    else TakesOf(labels[..|labels|-1], g) + if labels[|labels|-1] == Take(g) then 1 else 0
  }

  /** What a step does to call g: it is made, or has a step of its own, or none. */
  ghost predicate CallStep(s: State, l: Label, g: nat, call: Getter) {
    if g < |s.getters| then
      && call.channel == s.getters[g].channel
      && call.left == (if l == Return(g) then 0 else s.getters[g].left - if l == Take(g) then 1 else 0)
      && (l == Take(g) || l == Return(g) ==> s.getters[g].left > 0)
      && (l == Return(g) ==> FindsEmpty(s, call.channel))
    else l == Look(call.left) && g == |s.getters| && s.current == Some(call.channel)
  }

  lemma CallAfter(limit: nat, s: State, l: Label, g: nat)
    requires Enabled(limit, s, l) && g < |Apply(limit, s, l).getters|
    ensures CallStep(s, l, g, Apply(limit, s, l).getters[g])
  {
  }

  /** The step at which a call looked, and what it has left. */
  lemma {:induction false} CallLeft(limit: nat, states: seq<State>, labels: seq<Label>, n: nat, g: nat) returns (m: nat)
    requires IsRun(limit, states, labels) && n <= |labels| && g < |states[n].getters|
    ensures m < n && labels[m].Look? && |states[m].getters| == g
    ensures states[m].current == Some(states[n].getters[g].channel)
    ensures TakesOf(labels[..n], g) <= AtLeastZero(labels[m].count)
    ensures states[n].getters[g].left
         == if Return(g) in labels[..n] then 0 else labels[m].count - TakesOf(labels[..n], g)
  {
    CallAt(limit, states, labels, n - 1, g);
    LabelsUpTo(labels, n, g);
    if g < |states[n-1].getters| {
      m := CallLeft(limit, states, labels, n - 1, g);
    } else {
      m := n - 1;
      NotYetCalled(limit, states, labels, n - 1, g);
    }
  }

  lemma {:induction false} ReturnedEmpty(limit: nat, states: seq<State>, labels: seq<Label>, n: nat, g: nat, i: nat)
    requires IsRun(limit, states, labels) && i < n <= |labels| && g < |states[n].getters| && labels[i] == Return(g)
    ensures FindsEmpty(states[i], states[n].getters[g].channel)
    decreases n
  {
    CallAt(limit, states, labels, n - 1, g);
    if i < n - 1 {
      if g < |states[n-1].getters| {
        ReturnedEmpty(limit, states, labels, n - 1, g, i);
      } else {
        NotYetCalled(limit, states, labels, n - 1, g);
        assert false;
      }
    }
  }

  /** A call of `Get` keeps to the channel that was in the map when it looked. It takes no more than it asked for, and
      returns with less only because it found that channel empty. */
  lemma CallIs(limit: nat, states: seq<State>, labels: seq<Label>, n: nat, g: nat) returns (m: nat)
    requires IsRun(limit, states, labels) && n <= |labels| && g < |states[n].getters|
    ensures m < n && labels[m].Look? && |states[m].getters| == g
    ensures states[m].current == Some(states[n].getters[g].channel)
    ensures TakesOf(labels[..n], g) <= AtLeastZero(labels[m].count)
    ensures states[n].getters[g].left
         == if Return(g) in labels[..n] then 0 else labels[m].count - TakesOf(labels[..n], g)
    ensures forall i :: 0 <= i < n && labels[i] == Return(g) ==> FindsEmpty(states[i], states[n].getters[g].channel)
  {
    m := CallLeft(limit, states, labels, n, g);
    forall i | 0 <= i < n && labels[i] == Return(g) ensures FindsEmpty(states[i], states[n].getters[g].channel) {
      ReturnedEmpty(limit, states, labels, n, g, i);
    }
  }

  ghost predicate FindsEmpty(s: State, k: nat) {
    k < |s.chans| && s.chans[k].docs == []
  }

  lemma CallAt(limit: nat, states: seq<State>, labels: seq<Label>, i: nat, g: nat)
    requires Steps(limit, states, labels) && i < |labels| && g < |states[i+1].getters|
    ensures CallStep(states[i], labels[i], g, states[i+1].getters[g])
  {
    CallAfter(limit, states[i], labels[i], g);
  }

  lemma LabelsUpTo(labels: seq<Label>, n: nat, g: nat)
    requires 0 < n <= |labels|
    ensures TakesOf(labels[..n], g) == TakesOf(labels[..n-1], g) + if labels[n-1] == Take(g) then 1 else 0
    ensures Return(g) in labels[..n] <==> Return(g) in labels[..n-1] || labels[n-1] == Return(g)
  {
    assert labels[..n][..n-1] == labels[..n-1];
    assert labels[..n] == labels[..n-1] + [labels[n-1]];
  }

  lemma {:induction false} NotYetCalled(limit: nat, states: seq<State>, labels: seq<Label>, n: nat, g: nat)
    requires IsRun(limit, states, labels) && n <= |labels| && g >= |states[n].getters|
    ensures TakesOf(labels[..n], g) == 0 && Return(g) !in labels[..n]
    ensures forall i :: 0 <= i < n ==> labels[i] != Return(g)
  {
    if n > 0 {
      assert Enabled(limit, states[n-1], labels[n-1]) && states[n] == Apply(limit, states[n-1], labels[n-1]);
      NotYetCalled(limit, states, labels, n - 1, g);
      LabelsUpTo(labels, n, g);
    }
  }

  /** A document is sent on the channel that was in the map when the sender last looked, wherever the map is now. */
  lemma {:induction false} SenderFound(limit: nat, states: seq<State>, labels: seq<Label>, n: nat) returns (m: nat)
    requires IsRun(limit, states, labels) && n <= |labels| && states[n].sender.Some?
    ensures m < n && labels[m].LookSend? && states[m].current == states[n].sender
    ensures forall i :: m < i < n ==> !labels[i].LookSend? && !labels[i].Send?
  {
    assert Enabled(limit, states[n-1], labels[n-1]) && states[n] == Apply(limit, states[n-1], labels[n-1]);
    if labels[n-1].LookSend? { m := n - 1; } else { m := SenderFound(limit, states, labels, n - 1); }
  }

  lemma SentWhereFound(limit: nat, states: seq<State>, labels: seq<Label>, n: nat) returns (m: nat, k: nat)
    requires IsRun(limit, states, labels) && n < |labels| && labels[n].Send?
    ensures m < n && labels[m].LookSend? && states[m].current == Some(k)
    ensures forall i :: m < i < n ==> !labels[i].LookSend? && !labels[i].Send?
    ensures k < |states[n].chans| && |states[n].chans[k].docs| < limit
    ensures |states[n+1].chans| == |states[n].chans|
    ensures states[n+1].chans[k].docs == states[n].chans[k].docs + [labels[n].doc]
    ensures forall j :: 0 <= j < |states[n].chans| && j != k ==> states[n+1].chans[j] == states[n].chans[j]
  {
    assert Enabled(limit, states[n], labels[n]) && states[n+1] == Apply(limit, states[n], labels[n]);
    m := SenderFound(limit, states, labels, n);
    k := states[n].sender.value;
  }

  // ---------------------------------------------------------------- what a new call can reach

  /** The channels that are no longer in the map are empty. */
  ghost predicate SupersededEmpty(s: State) {
    forall k :: 0 <= k < |s.chans| - 1 ==> s.chans[k].docs == []
  }

  /** All that was sent is returned already or in the channel that the next `Get` will find. */
  ghost predicate WithinReach(s: State)
    requires s.current.Some? && s.current.value < |s.chans|
  {
    multiset(s.sent) == multiset(s.delivered) + multiset(s.chans[s.current.value].docs)
  }

  lemma {:induction false} NothingQueued(chans: seq<Channel>)
    ensures AllQueued(chans) == [] <==> forall k :: 0 <= k < |chans| ==> chans[k].docs == []
  {
    if chans != [] {
      var n := |chans| - 1;
      NothingQueued(chans[..n]);
      assert chans[..n] + [chans[n]] == chans;
    }
  }

  /** Of three parts, all is in the first and the last exactly if the middle is empty. */
  lemma MiddleIsEmpty(a: multiset<Document>, b: seq<Document>, c: multiset<Document>)
    ensures a + (multiset(b) + c) == a + c <==> b == []
  {
    assert |a + (multiset(b) + c)| == |a| + |b| + |c| && |a + c| == |a| + |c|;
    if b == [] { assert multiset(b) == multiset{}; }
  }

  lemma QueuedParts(limit: nat, s: State)
    requires Inv(limit, s) && s.current.Some?
    ensures multiset(s.sent) == multiset(s.delivered)
                                + (multiset(AllQueued(s.chans[..|s.chans|-1])) + multiset(s.chans[|s.chans|-1].docs))
  {
    SentIsTakenAndQueued(limit, s.chans);
  }

  lemma ReachWhen(limit: nat, s: State)
    requires Inv(limit, s) && s.current.Some?
    ensures WithinReach(s) <==> SupersededEmpty(s)
  {
    var n := |s.chans| - 1;
    QueuedParts(limit, s);
    NothingQueued(s.chans[..n]);
    MiddleIsEmpty(multiset(s.delivered), AllQueued(s.chans[..n]), multiset(s.chans[n].docs));
  }

  lemma {:induction false} SentWhenDrained(limit: nat, chans: seq<Channel>)
    requires FifoAll(limit, chans) && forall k :: 0 <= k < |chans| ==> chans[k].docs == []
    ensures AllSent(chans) == AllTaken(chans)
  {
    if chans != [] {
      SentWhenDrained(limit, chans[..|chans|-1]);
      assert Fifo(limit, chans[|chans|-1]);
    }
  }

  lemma SentWhenReached(limit: nat, chans: seq<Channel>)
    requires FifoAll(limit, chans) && chans != [] && forall k :: 0 <= k < |chans| - 1 ==> chans[k].docs == []
    ensures AllSent(chans) == AllTaken(chans) + chans[|chans|-1].docs
  {
    var init, last := chans[..|chans|-1], chans[|chans|-1];
    assert FifoAll(limit, init) && Fifo(limit, last);
    SentWhenDrained(limit, init);
    Regrouped(AllTaken(init), last.taken, last.docs);
  }

  lemma Regrouped(a: seq<Document>, b: seq<Document>, c: seq<Document>)
    ensures a + (b + c) == a + b + c
  {
  }

  lemma SameTail(a: seq<Document>, b: seq<Document>, tail: seq<Document>)
    requires a + tail == b + tail
    ensures a == b
  {
    assert |a| == |b|;
    assert a == (a + tail)[..|a|] && b == (b + tail)[..|b|];
  }

  lemma OrderWhen(limit: nat, s: State)
    requires Inv(limit, s) && s.current.Some?
    ensures s.delivered + s.chans[|s.chans|-1].docs == s.sent
       <==> SupersededEmpty(s) && s.delivered == AllTaken(s.chans)
  {
    var tail := s.chans[|s.chans|-1].docs;
    ReachWhen(limit, s);
    if s.delivered + tail == s.sent { assert WithinReach(s); }
    if SupersededEmpty(s) { OrderWhenReached(limit, s); }
  }

  lemma OrderWhenReached(limit: nat, s: State)
    requires Inv(limit, s) && s.chans != [] && SupersededEmpty(s)
    ensures s.delivered + s.chans[|s.chans|-1].docs == s.sent <==> s.delivered == AllTaken(s.chans)
  {
    var tail := s.chans[|s.chans|-1].docs;
    SentWhenReached(limit, s.chans);
    if s.delivered + tail == s.sent { SameTail(s.delivered, AllTaken(s.chans), tail); }
  }

  /** The channel that step `i` takes a document from. */
  function TakenAt(states: seq<State>, labels: seq<Label>, i: int): Option<nat> {
    if 0 <= i < |labels| && i < |states| && labels[i].Take? && labels[i].getter < |states[i].getters|
    then Some(states[i].getters[labels[i].getter].channel) else None
  }

  /** None of the first n steps takes from an older channel after one has taken from a newer. */
  ghost predicate TakenInTurn(states: seq<State>, labels: seq<Label>, n: nat) {
    forall i, j :: 0 <= i < j < n && TakenAt(states, labels, i).Some? && TakenAt(states, labels, j).Some? ==>
      TakenAt(states, labels, i).value <= TakenAt(states, labels, j).value
  }

  /** Nothing has been taken from the channels behind k. */
  ghost predicate UntakenBehind(chans: seq<Channel>, k: nat) {
    forall j :: k < j < |chans| ==> chans[j].taken == []
  }

  lemma {:induction false} AllTakenSplits(a: seq<Channel>, b: seq<Channel>)
    ensures AllTaken(a + b) == AllTaken(a) + AllTaken(b)
  {
    if b == [] {
      assert a + b == a;
    } else {
      assert (a + b)[..|a + b|-1] == a + b[..|b|-1];
      AllTakenSplits(a, b[..|b|-1]);
    }
  }

  lemma {:induction false} NothingTaken(chans: seq<Channel>)
    ensures AllTaken(chans) == [] <==> forall k :: 0 <= k < |chans| ==> chans[k].taken == []
  {
    if chans != [] {
      var n := |chans| - 1;
      NothingTaken(chans[..n]);
      assert chans[..n] + [chans[n]] == chans;
    }
  }

  /** Where a document that is taken comes among all that were taken. */
  lemma TakenAmong(chans: seq<Channel>, k: nat)
    requires k < |chans| && chans[k].docs != []
    ensures AllTaken(chans) == AllTaken(chans[..k+1]) + AllTaken(chans[k+1..])
    ensures AllTaken(chans[k := TakenOne(chans[k])])
         == AllTaken(chans[..k+1]) + [chans[k].docs[0]] + AllTaken(chans[k+1..])
  {
    var chans', upTo, rest := chans[k := TakenOne(chans[k])], chans[..k+1], chans[k+1..];
    AllTakenSplits(upTo, rest);
    assert chans == upTo + rest;
    var upTo' := chans'[..k+1];
    AllTakenSplits(upTo', rest);
    assert chans' == upTo' + rest;
    assert upTo[..k] == upTo'[..k];
    Regrouped(AllTaken(upTo[..k]), chans[k].taken, [chans[k].docs[0]]);
  }

  lemma AllTakenAfter(chans: seq<Channel>, k: nat)
    requires k < |chans| && chans[k].docs != []
    ensures multiset(AllTaken(chans[k := TakenOne(chans[k])])) == multiset(AllTaken(chans)) + multiset{chans[k].docs[0]}
  {
    TakenAmong(chans, k);
  }

  lemma UntakenWhen(chans: seq<Channel>, k: nat)
    requires k < |chans|
    ensures AllTaken(chans[k+1..]) == [] <==> UntakenBehind(chans, k)
  {
    var rest := chans[k+1..];
    NothingTaken(rest);
    assert forall j :: k < j < |chans| ==> chans[j] == rest[j-k-1];
  }

  lemma TwiceWhenLast(a: seq<Document>, doc: Document, b: seq<Document>, before: seq<Document>)
    requires a + [doc] + b == before + [doc]
    ensures b == [] || multiset(a + [doc] + b)[doc] >= 2
  {
    var all := a + [doc] + b;
    assert b != [] ==> all[|all|-1] == b[|b|-1] == doc;
    assert multiset(all) == multiset(a) + multiset{doc} + multiset(b);
  }

  /** A document that is put behind all others, where it is put among them, was put at their end. */
  lemma PutLast(a: seq<Document>, doc: Document, b: seq<Document>, before: seq<Document>)
    requires multiset(a + [doc] + b)[doc] <= 1
    ensures a + [doc] + b == before + [doc] <==> b == [] && before == a + b
  {
    if a + [doc] + b == before + [doc] {
      TwiceWhenLast(a, doc, b, before);
      assert a == (a + [doc] + b)[..|a|] && before == (before + [doc])[..|before|];
    }
  }

  lemma PutAtEnd(a: seq<Document>, doc: Document, b: seq<Document>, before: seq<Document>)
    requires b == [] && before == a + b
    ensures a + [doc] + b == before + [doc]
  {
  }

  /** Something has been taken from channel k exactly if some step took it. */
  lemma {:induction false} TakenBySteps(limit: nat, states: seq<State>, labels: seq<Label>, n: nat, k: nat)
    requires IsRun(limit, states, labels) && n <= |labels| && k < |states[n].chans|
    ensures states[n].chans[k].taken != [] <==> exists i :: 0 <= i < n && TakenAt(states, labels, i) == Some(k)
  {
    if n > 0 {
      TakenStep(limit, states, labels, n, k);
      if k < |states[n-1].chans| {
        TakenBySteps(limit, states, labels, n - 1, k);
      } else {
        forall i | 0 <= i < n - 1 && TakenAt(states, labels, i) == Some(k) ensures false {
          TakenFromOld(limit, states, labels, i, n - 1);
        }
      }
    }
  }

  lemma TakenStep(limit: nat, states: seq<State>, labels: seq<Label>, n: nat, k: nat)
    requires IsRun(limit, states, labels) && 0 < n <= |labels| && k < |states[n].chans|
    ensures TakenAt(states, labels, n - 1) == Some(k) ==> k < |states[n-1].chans| && states[n].chans[k].taken != []
    ensures TakenAt(states, labels, n - 1) != Some(k) ==>
              states[n].chans[k].taken == if k < |states[n-1].chans| then states[n-1].chans[k].taken else []
  {
    assert Enabled(limit, states[n-1], labels[n-1]) && states[n] == Apply(limit, states[n-1], labels[n-1]);
  }

  lemma TakenFromOld(limit: nat, states: seq<State>, labels: seq<Label>, i: nat, n: nat)
    requires IsRun(limit, states, labels) && i < n <= |labels| && TakenAt(states, labels, i).Some?
    ensures TakenAt(states, labels, i).value < |states[n].chans|
  {
    ChannelsStay(limit, states, labels, i, n);
    assert Enabled(limit, states[i], labels[i]);
  }

  /** The step after n takes from a channel that no step before it is behind, exactly if nothing is taken behind it. */
  lemma InTurnAfter(limit: nat, states: seq<State>, labels: seq<Label>, n: nat, k: nat)
    requires IsRun(limit, states, labels) && n < |labels| && TakenAt(states, labels, n) == Some(k)
    requires k < |states[n].chans|
    ensures TakenInTurn(states, labels, n + 1)
       <==> TakenInTurn(states, labels, n) && UntakenBehind(states[n].chans, k)
  {
    if TakenInTurn(states, labels, n + 1) {
      forall j | k < j < |states[n].chans| ensures states[n].chans[j].taken == [] {
        TakenBySteps(limit, states, labels, n, j);
      }
    }
    if UntakenBehind(states[n].chans, k) {
      forall i | 0 <= i < n && TakenAt(states, labels, i).Some? ensures TakenAt(states, labels, i).value <= k {
        TakenFromOld(limit, states, labels, i, n);
        TakenBySteps(limit, states, labels, n, TakenAt(states, labels, i).value);
      }
    }
  }

  lemma NoTakeInTurn(states: seq<State>, labels: seq<Label>, n: nat)
    requires TakenAt(states, labels, n).None?
    ensures TakenInTurn(states, labels, n + 1) <==> TakenInTurn(states, labels, n)
  {
  }

  lemma OtherStepTakesNothing(limit: nat, s: State, l: Label)
    requires Enabled(limit, s, l) && !l.Take? && Inv(limit, s)
    ensures AllTaken(Apply(limit, s, l).chans) == AllTaken(s.chans) && Apply(limit, s, l).delivered == s.delivered
  {
    if l.Make? {
      assert Apply(limit, s, l).chans[..|s.chans|] == s.chans;
    } else if l.Send? {
      AllSentAfter(s.chans, s.sender.value, l.doc);
    }
  }

  lemma TakeStep(limit: nat, states: seq<State>, labels: seq<Label>, n: nat, k: nat)
    requires IsRun(limit, states, labels) && n < |labels| && TakenAt(states, labels, n) == Some(k)
    ensures k < |states[n].chans| && states[n].chans[k].docs != []
    ensures states[n+1].chans == states[n].chans[k := TakenOne(states[n].chans[k])]
    ensures states[n+1].delivered == states[n].delivered + [states[n].chans[k].docs[0]]
  {
    assert Enabled(limit, states[n], labels[n]) && states[n+1] == Apply(limit, states[n], labels[n]);
  }

  /** Documents that were sent once have been taken once. */
  ghost predicate SentOnce(docs: seq<Document>) {
    forall doc :: multiset(docs)[doc] <= 1
  }

  lemma TakenOnce(limit: nat, s: State, doc: Document)
    requires Inv(limit, s) && SentOnce(s.sent)
    ensures multiset(AllTaken(s.chans))[doc] <= 1
  {
    SentIsTakenAndQueued(limit, s.chans);
    assert multiset(s.sent)[doc] == multiset(AllTaken(s.chans))[doc] + multiset(AllQueued(s.chans))[doc];
  }

  lemma FewerSentOnce(docs: seq<Document>, more: seq<Document>)
    requires SentOnce(docs + more)
    ensures SentOnce(docs)
  {
    assert forall doc :: multiset(docs + more)[doc] == multiset(docs)[doc] + multiset(more)[doc];
  }

  lemma SentStays(limit: nat, states: seq<State>, labels: seq<Label>, n: nat)
    requires IsRun(limit, states, labels) && n < |labels| && SentOnce(states[n+1].sent)
    ensures SentOnce(states[n].sent)
  {
    assert Enabled(limit, states[n], labels[n]) && states[n+1] == Apply(limit, states[n], labels[n]);
    if labels[n].Send? { FewerSentOnce(states[n].sent, [labels[n].doc]); }
  }

  lemma NoTakeStep(limit: nat, states: seq<State>, labels: seq<Label>, n: nat)
    requires IsRun(limit, states, labels) && n < |labels| && TakenAt(states, labels, n).None?
    requires Inv(limit, states[n])
    ensures AllTaken(states[n+1].chans) == AllTaken(states[n].chans) && states[n+1].delivered == states[n].delivered
  {
    assert Enabled(limit, states[n], labels[n]) && states[n+1] == Apply(limit, states[n], labels[n]);
    OtherStepTakesNothing(limit, states[n], labels[n]);
  }

  lemma DeliveredAfterTake(limit: nat, s: State, s': State, k: nat)
    requires Inv(limit, s') && k < |s.chans| && s.chans[k].docs != []
    requires s'.chans == s.chans[k := TakenOne(s.chans[k])]
    requires s'.delivered == s.delivered + [s.chans[k].docs[0]]
    ensures UntakenBehind(s.chans, k) && s.delivered == AllTaken(s.chans) ==> s'.delivered == AllTaken(s'.chans)
    ensures SentOnce(s'.sent) && s'.delivered == AllTaken(s'.chans) ==>
              UntakenBehind(s.chans, k) && s.delivered == AllTaken(s.chans)
  {
    var doc, upTo, rest := s.chans[k].docs[0], AllTaken(s.chans[..k+1]), AllTaken(s.chans[k+1..]);
    TakenAmong(s.chans, k);
    UntakenWhen(s.chans, k);
    if rest == [] && s.delivered == upTo + rest { PutAtEnd(upTo, doc, rest, s.delivered); }
    if SentOnce(s'.sent) {
      TakenOnce(limit, s', doc);
      PutLast(upTo, doc, rest, s.delivered);
    }
  }

  /** What was returned is what was taken from one channel after the other, if no step took from an older one after
      a newer; and only then, if no document was sent twice. */
  ghost predicate InTurnWhen(states: seq<State>, labels: seq<Label>, n: nat)
    requires n < |states|
  {
    && (TakenInTurn(states, labels, n) ==> states[n].delivered == AllTaken(states[n].chans))
    && (SentOnce(states[n].sent) && states[n].delivered == AllTaken(states[n].chans) ==> TakenInTurn(states, labels, n))
  }

  lemma TakeInTurn(limit: nat, states: seq<State>, labels: seq<Label>, n: nat, k: nat)
    requires IsRun(limit, states, labels) && n < |labels| && TakenAt(states, labels, n) == Some(k)
    requires InTurnWhen(states, labels, n)
    ensures InTurnWhen(states, labels, n + 1)
  {
    TakeStep(limit, states, labels, n, k);
    StepsKeepInv(limit, states, labels, n + 1);
    DeliveredAfterTake(limit, states[n], states[n+1], k);
    InTurnAfter(limit, states, labels, n, k);
    if SentOnce(states[n+1].sent) { SentStays(limit, states, labels, n); }
  }

  lemma OtherInTurn(limit: nat, states: seq<State>, labels: seq<Label>, n: nat)
    requires IsRun(limit, states, labels) && n < |labels| && TakenAt(states, labels, n).None?
    requires InTurnWhen(states, labels, n)
    ensures InTurnWhen(states, labels, n + 1)
  {
    NoTakeInTurn(states, labels, n);
    StepsKeepInv(limit, states, labels, n);
    NoTakeStep(limit, states, labels, n);
    if SentOnce(states[n+1].sent) { SentStays(limit, states, labels, n); }
  }

  lemma {:induction false} DeliveredInTurn(limit: nat, states: seq<State>, labels: seq<Label>, n: nat)
    requires IsRun(limit, states, labels) && n <= |labels|
    ensures InTurnWhen(states, labels, n)
  {
    if n > 0 {
      DeliveredInTurn(limit, states, labels, n - 1);
      var k := TakenAt(states, labels, n - 1);
      if k.Some? {
        TakeInTurn(limit, states, labels, n - 1, k.value);
      } else {
        OtherInTurn(limit, states, labels, n - 1);
      }
    }
  }

  /** What was sent is in order what was returned and what is in the newest channel, exactly if the superseded
      channels are empty and what was returned is what was taken from one channel after the other; that is so if no step
      took from an older channel after one took from a newer, and only then if no document was sent twice. */
  lemma OrderKeptWhen(limit: nat, states: seq<State>, labels: seq<Label>, n: nat)
    requires IsRun(limit, states, labels) && n <= |labels| && states[n].current.Some?
    ensures var s := states[n];
            s.chans != [] &&
            (s.delivered + s.chans[|s.chans|-1].docs == s.sent <==>
               SupersededEmpty(s) && s.delivered == AllTaken(s.chans))
    ensures var s := states[n];
            SentOnce(s.sent) ==>
              (s.delivered + s.chans[|s.chans|-1].docs == s.sent <==>
                 SupersededEmpty(s) && TakenInTurn(states, labels, n))
  {
    StepsKeepInv(limit, states, labels, n);
    OrderWhen(limit, states[n]);
    DeliveredInTurn(limit, states, labels, n);
  }

  /** Since step m, as many documents have been taken from the channel it replaced as were in it then, and sent on it
      late. */
  ghost predicate Drained(states: seq<State>, m: nat, n: nat)
    requires m <= n < |states| && states[m].current.Some?
    requires states[m].current.value < |states[m].chans| <= |states[n].chans|
  {
    var k := states[m].current.value;
    var before, after := states[m].chans[k], states[n].chans[k];
    |after.taken| - |before.taken| == |before.docs| + (|after.sent| - |before.sent|)
  }

  lemma {:induction false} ChannelsStay(limit: nat, states: seq<State>, labels: seq<Label>, m: nat, n: nat)
    requires IsRun(limit, states, labels) && m <= n <= |labels|
    ensures |states[m].chans| <= |states[n].chans|
    ensures states[m].current.Some? ==> states[m].current.value < |states[m].chans|
  {
    StepsKeepInv(limit, states, labels, m);
    if m < n {
      ChannelsStay(limit, states, labels, m, n - 1);
      assert Enabled(limit, states[n-1], labels[n-1]) && states[n] == Apply(limit, states[n-1], labels[n-1]);
    }
  }

  lemma MadeAt(limit: nat, states: seq<State>, labels: seq<Label>, i: nat, k: nat)
    requires IsRun(limit, states, labels) && i < |labels| && k < |states[i+1].chans| - 1
    ensures k < |states[i].chans| - 1 || (labels[i].Make? && states[i].current == Some(k))
  {
    StepsKeepInv(limit, states, labels, i);
    assert Enabled(limit, states[i], labels[i]) && states[i+1] == Apply(limit, states[i], labels[i]);
  }

  /** Each channel but the newest was replaced by some step. */
  lemma {:induction false} ReplacedBy(limit: nat, states: seq<State>, labels: seq<Label>, n: nat, k: nat)
    returns (m: nat)
    requires IsRun(limit, states, labels) && n <= |labels| && k < |states[n].chans| - 1
    ensures m < n && labels[m].Make? && states[m].current == Some(k)
  {
    MadeAt(limit, states, labels, n - 1, k);
    if k < |states[n-1].chans| - 1 {
      m := ReplacedBy(limit, states, labels, n - 1, k);
    } else {
      m := n - 1;
    }
  }

  /** Everything that was sent and not returned is within reach of the next `Get` exactly if each channel that a step
      replaced was empty then, or has been drained since by calls that had found it before. */
  lemma ReachedWhen(limit: nat, states: seq<State>, labels: seq<Label>, n: nat)
    requires IsRun(limit, states, labels) && n <= |labels| && states[n].current.Some?
    ensures states[n].current.value < |states[n].chans|
    ensures forall m :: 0 <= m < n && states[m].current.Some? ==>
              states[m].current.value < |states[m].chans| <= |states[n].chans|
    ensures WithinReach(states[n])
       <==> forall m :: 0 <= m < n && labels[m].Make? && states[m].current.Some? ==> Drained(states, m, n)
  {
    StepsKeepInv(limit, states, labels, n);
    ReachWhen(limit, states[n]);
    forall m | 0 <= m < n && states[m].current.Some?
      ensures states[m].current.value < |states[m].chans| <= |states[n].chans|
      ensures labels[m].Make? ==> (states[m].current.value < |states[n].chans| - 1
          && (Drained(states, m, n) <==> states[n].chans[states[m].current.value].docs == []))
    {
      ChannelsStay(limit, states, labels, m, n);
      if labels[m].Make? { MakeSupersedes(limit, states, labels, m, n); }
    }
    if forall m :: 0 <= m < n && labels[m].Make? && states[m].current.Some? ==> Drained(states, m, n) {
      forall k | 0 <= k < |states[n].chans| - 1 ensures states[n].chans[k].docs == [] {
        var m := ReplacedBy(limit, states, labels, n, k);
        assert Drained(states, m, n);
      }
    }
  }

  lemma MakeSupersedes(limit: nat, states: seq<State>, labels: seq<Label>, m: nat, n: nat)
    requires IsRun(limit, states, labels) && m < n <= |labels| && labels[m].Make? && states[m].current.Some?
    ensures states[m].current.value < |states[m].chans| <= |states[n].chans|
    ensures states[m].current.value < |states[n].chans| - 1
    ensures Drained(states, m, n) <==> states[n].chans[states[m].current.value].docs == []
  {
    StepsKeepInv(limit, states, labels, m);
    StepsKeepInv(limit, states, labels, n);
    ChannelsStay(limit, states, labels, m, n);
    ChannelsStay(limit, states, labels, m + 1, n);
    assert states[m+1] == Apply(limit, states[m], labels[m]);
    var k := states[m].current.value;
    assert Fifo(limit, states[m].chans[k]) && Fifo(limit, states[n].chans[k]);
    assert |states[m].chans[k].sent| == |states[m].chans[k].taken| + |states[m].chans[k].docs|;
    assert |states[n].chans[k].sent| == |states[n].chans[k].taken| + |states[n].chans[k].docs|;
  }

  // ---------------------------------------------------------------- superseded channels

  /** In the steps from the first state on, the calls of `Get` that look later have found newer channels than k,
      and what the sender can still send on k is the one document of a sender that had found it. */
  ghost predicate Passed(s: State, s': State, k: nat)
    requires k < |s.chans| <= |s'.chans|
  {
    && |s.getters| <= |s'.getters|
    && (forall g :: 0 <= g < |s.getters| ==> s'.getters[g].channel == s.getters[g].channel
                                             && s'.getters[g].left <= s.getters[g].left)
    && (forall g :: |s.getters| <= g < |s'.getters| ==> s'.getters[g].channel > k)
    && (s'.sender == Some(k) ==> s.sender == Some(k) && s'.chans[k].sent == s.chans[k].sent)
    && |s.chans[k].sent| <= |s'.chans[k].sent| <= |s.chans[k].sent| + if s.sender == Some(k) then 1 else 0
  }

  lemma StepPasses(limit: nat, s: State, t: State, l: Label, k: nat)
    requires Inv(limit, t) && k < |s.chans| - 1 && |s.chans| <= |t.chans| && Passed(s, t, k) && Enabled(limit, t, l)
    ensures |s.chans| <= |Apply(limit, t, l).chans| && Passed(s, Apply(limit, t, l), k)
  {
  }

  lemma {:induction false} CallsPass(limit: nat, states: seq<State>, labels: seq<Label>, n: nat, k: nat)
    requires Steps(limit, states, labels) && Inv(limit, states[0]) && n <= |labels| && k < |states[0].chans| - 1
    ensures |states[0].chans| <= |states[n].chans| && Passed(states[0], states[n], k)
  {
    if n > 0 {
      CallsPass(limit, states, labels, n - 1, k);
      StepsKeepInv(limit, states, labels, n - 1);
      StepPasses(limit, states[0], states[n-1], labels[n-1], k);
    }
  }

  lemma StepsFrom(limit: nat, states: seq<State>, labels: seq<Label>, m: nat)
    requires Steps(limit, states, labels) && m <= |labels|
    ensures Steps(limit, states[m..], labels[m..])
  {
    forall i | 0 <= i < |labels[m..]|
      ensures Enabled(limit, states[m..][i], labels[m..][i])
           && states[m..][i+1] == Apply(limit, states[m..][i], labels[m..][i])
    {
      assert Enabled(limit, states[m+i], labels[m+i]);
    }
  }

  lemma PassedSince(limit: nat, states: seq<State>, labels: seq<Label>, m: nat, n: nat)
    requires IsRun(limit, states, labels) && m < n <= |labels| && labels[m].Make? && states[m].current.Some?
    ensures var k := states[m].current.value;
            && k < |states[m].chans| < |states[m+1].chans| <= |states[n].chans| && Passed(states[m+1], states[n], k)
  {
    StepsFrom(limit, states, labels, m + 1);
    StepsKeepInv(limit, states, labels, m);
    StepsKeepInv(limit, states, labels, m + 1);
    assert Enabled(limit, states[m], labels[m]) && states[m+1] == Apply(limit, states[m], labels[m]);
    CallsPass(limit, states[m+1..], labels[m+1..], n - m - 1, states[m].current.value);
    assert states[m+1..][n-m-1] == states[n];
  }

  lemma TakenBy(limit: nat, s: State, l: Label, k: nat)
    requires Enabled(limit, s, l) && k < |s.chans| && Apply(limit, s, l).chans[k].taken != s.chans[k].taken
    ensures l.Take? && s.getters[l.getter].channel == k
  {
  }

  /** A `Get` that looks after a channel was replaced never takes a document from it: only calls that had found it
      before can drain it, and at most the one document of a sender that had found it is still sent on it. */
  lemma OnlyEarlierFindersDrain(limit: nat, states: seq<State>, labels: seq<Label>, m: nat, n: nat)
    requires IsRun(limit, states, labels) && m < n < |labels| && labels[m].Make? && states[m].current.Some?
    ensures var k := states[m].current.value;
            && k < |states[m].chans| <= |states[n].chans| <= |states[n+1].chans|
            && (states[n+1].chans[k].taken != states[n].chans[k].taken ==>
                  labels[n].Take? && labels[n].getter < |states[m].getters|
                  && states[m].getters[labels[n].getter].channel == k)
            && |states[n+1].chans[k].sent| <= |states[m].chans[k].sent| + if states[m].sender == Some(k) then 1 else 0
  {
    var k := states[m].current.value;
    PassedSince(limit, states, labels, m, n);
    PassedSince(limit, states, labels, m, n + 1);
    StepsKeepInv(limit, states, labels, n);
    assert states[m+1] == Apply(limit, states[m], labels[m]);
    if states[n+1].chans[k].taken != states[n].chans[k].taken { TakenBy(limit, states[n], labels[n], k); }
  }

  /** Nobody is about to take anything from channel k. */
  ghost predicate Abandoned(s: State, k: nat) {
    k < |s.chans| - 1 && forall g :: 0 <= g < |s.getters| && s.getters[g].channel == k ==> s.getters[g].left <= 0
  }

  lemma AbandonedStep(limit: nat, s: State, l: Label, k: nat)
    requires Inv(limit, s) && Abandoned(s, k) && Enabled(limit, s, l)
    ensures Abandoned(Apply(limit, s, l), k) && s.chans[k].docs <= Apply(limit, s, l).chans[k].docs
  {
  }

  /** What is in an abandoned channel stays there. */
  lemma {:induction false} AbandonedStays(limit: nat, states: seq<State>, labels: seq<Label>, n: nat, k: nat)
    requires Steps(limit, states, labels) && Inv(limit, states[0]) && Abandoned(states[0], k) && n <= |labels|
    ensures Abandoned(states[n], k) && states[0].chans[k].docs <= states[n].chans[k].docs
  {
    if n > 0 {
      AbandonedStays(limit, states, labels, n - 1, k);
      StepsKeepInv(limit, states, labels, n - 1);
      AbandonedStep(limit, states[n-1], labels[n-1], k);
    }
  }

  lemma {:induction false} QueuedSomewhere(chans: seq<Channel>, k: nat, doc: Document)
    requires k < |chans| && doc in chans[k].docs
    ensures doc in AllQueued(chans)
  {
    if k < |chans| - 1 { QueuedSomewhere(chans[..|chans|-1], k, doc); }
  }

  /** A document in an abandoned channel is never returned, whatever happens, unless it is sent again. */
  lemma LostForGood(limit: nat, states: seq<State>, labels: seq<Label>, k: nat, doc: Document)
    requires Steps(limit, states, labels) && Inv(limit, states[0])
    requires Abandoned(states[0], k) && doc in states[0].chans[k].docs
    requires multiset(states[|labels|].sent)[doc] == 1
    ensures doc !in states[|labels|].delivered
  {
    var s := states[|labels|];
    StepsKeepInv(limit, states, labels, |labels|);
    AbandonedStays(limit, states, labels, |labels|, k);
    QueuedSomewhere(s.chans, k, doc);
    SentIsTakenAndQueued(limit, s.chans);
    assert multiset(s.sent)[doc] == multiset(s.delivered)[doc] + multiset(AllQueued(s.chans))[doc];
  }

  // ---------------------------------------------------------------- how many there are

  function FoundNone(labels: seq<Label>): nat {
    if labels == [] then 0
    else FoundNone(labels[..|labels|-1]) + if labels[|labels|-1].FindNone? then 1 else 0
  }

  /** Once a channel has been made, none finds none: a second channel needs two goroutines that found none before. */
  lemma {:induction false} SecondChannelWhen(limit: nat, states: seq<State>, labels: seq<Label>, n: nat)
    requires IsRun(limit, states, labels) && n <= |labels|
    ensures |states[n].chans| + states[n].creators == FoundNone(labels[..n])
    ensures states[n].current.None? <==> states[n].chans == []
  {
    if n > 0 {
      SecondChannelWhen(limit, states, labels, n - 1);
      assert labels[..n][..n-1] == labels[..n-1];
      assert Enabled(limit, states[n-1], labels[n-1]) && states[n] == Apply(limit, states[n-1], labels[n-1]);
    }
  }

  /** Two goroutines find none, and the channel of the first is replaced when a document is in it already. */
  lemma SentBetweenMakes(limit: nat, doc: Document) returns (states: seq<State>, labels: seq<Label>)
    requires limit >= 1
    ensures IsRun(limit, states, labels)
    ensures states[|labels|] == State([Channel([doc], [doc], []), Channel([], [], [])], Some(1), 0, [], None, [doc], [])
  {
    labels := [FindNone, FindNone, Make, LookSend, Send(doc), Make];
    var empty, one := Channel([], [], []), Channel([doc], [doc], []);
    var s1 := INIT.(creators := 1);
    var s2 := INIT.(creators := 2);
    var s3 := State([empty], Some(0), 1, [], None, [], []);
    var s4 := s3.(sender := Some(0));
    var s5 := State([one], Some(0), 1, [], None, [doc], []);
    var s6 := State([one, empty], Some(1), 0, [], None, [doc], []);
    assert SentOne(empty, doc) == one;
    assert Apply(limit, s4, Send(doc)) == s5;
    assert Apply(limit, s5, Make) == s6;
    states := [INIT, s1, s2, s3, s4, s5, s6];
  }

  /** Then it is lost: it is sent once, and no call of `Get` ever returns it. */
  lemma DocumentInLostChannel(limit: nat, doc: Document) returns (states: seq<State>, labels: seq<Label>)
    requires limit >= 1
    ensures IsRun(limit, states, labels) && states[|labels|].sent == [doc] && states[|labels|].current == Some(1)
    ensures |states[|labels|].chans| == 2 && !WithinReach(states[|labels|])
    ensures forall later: seq<State>, more: seq<Label> ::
              Steps(limit, later, more) && later[0] == states[|labels|] && multiset(later[|more|].sent)[doc] == 1 ==>
                doc !in later[|more|].delivered
  {
    states, labels := SentBetweenMakes(limit, doc);
    var s := states[|labels|];
    StepsKeepInv(limit, states, labels, |labels|);
    assert doc in s.chans[0].docs && Abandoned(s, 0);
    ReachWhen(limit, s);
    forall later: seq<State>, more: seq<Label> |
      Steps(limit, later, more) && later[0] == s && multiset(later[|more|].sent)[doc] == 1
      ensures doc !in later[|more|].delivered
    {
      LostForGood(limit, later, more, 0, doc);
    }
  }
}
