/** The Kafka cache: one log per topic, and for each consumer and topic a bounded channel between
the goroutine that reads the log and the callers of `Get`.

A run is a sequence of labels, each an atomic step of one goroutine. */
module Kafka {
  import opened Wrappers
  import opened Documents

  /** How many documents a topic's channel holds: the limit of the topic's period. */
  type Limits = map<string, nat>

  /** What the goroutine that handles a consumer's messages is doing. */
  datatype Hand =
    | Idle
    | Holding(topic: string, doc: Document) // read, and about to be sent on the channel
    | Enqueued(topic: string) // sent, and about to be marked

  /** A consumer's progress on one topic. `start` is where the log ended when it subscribed,
      `next` what it reads next, `delivered` all that `Get` has returned. */
  datatype Lane = Lane(start: nat, next: nat, chan: seq<Document>, marked: nat, delivered: seq<Document>)

  datatype Consumer = Consumer(hand: Hand, lanes: map<string, Lane>)

  type Logs = map<string, seq<Document>>

  type Places = map<string, (string, nat)>

  /** `places` records where in the logs each id is. */
  datatype State = State(logs: Logs, places: Places, consumers: map<string, Consumer>)

  const INIT := State(map[], map[], map[])

  datatype Label =
    | Put(topic: string, doc: Document)
    | Subscribe(name: string)
    | Receive(name: string, topic: string)
    | Enqueue(name: string)
    | Mark(name: string)
    | Take(name: string, topic: string)

  function Log(logs: Logs, topic: string): seq<Document> {
    if topic in logs then logs[topic] else []
  }

  /** A document as `Put` makes it: with an id never seen before. */
  predicate NewDocument(s: State, doc: Document) {
    WellFormed(doc) && doc.id !in s.places
  }

  predicate WellFormed(doc: Document) {
    |doc.id| == ID_LENGTH && doc.submitTime > 0
  }

  predicate HasLane(s: State, name: string, topic: string) {
    name in s.consumers && topic in s.consumers[name].lanes
  }

  function LaneOf(s: State, name: string, topic: string): Lane
    requires HasLane(s, name, topic)
  {
    s.consumers[name].lanes[topic]
  }

  predicate Enabled(limits: Limits, s: State, l: Label) {
    match l
    case Put(topic, doc) => NewDocument(s, doc)
    case Subscribe(name) => name !in s.consumers
    case Receive(name, topic) => HasLane(s, name, topic) && LaneLabel(s, l, name, topic)
    case Enqueue(name) =>
      && name in s.consumers && s.consumers[name].hand.Holding?
      && (var topic := s.consumers[name].hand.topic;
          HasLane(s, name, topic) && topic in limits && |LaneOf(s, name, topic).chan| < limits[topic])
    case Mark(name) =>
      name in s.consumers && s.consumers[name].hand.Enqueued? && HasLane(s, name, s.consumers[name].hand.topic)
    case Take(name, topic) => HasLane(s, name, topic) && LaneLabel(s, l, name, topic)
  }

  function Apply(limits: Limits, s: State, l: Label): State
    requires Enabled(limits, s, l)
  {
    match l
    case Put(topic, doc) =>
      var log := Log(s.logs, topic);
      s.(logs := s.logs[topic := log + [doc]], places := s.places[doc.id := (topic, |log|)])
    case Subscribe(name) => SubscribeConsumer(limits, s, name)
    case Receive(name, topic) => MoveLane(s, l, name, topic)
    case Enqueue(name) => MoveLane(s, l, name, s.consumers[name].hand.topic)
    case Mark(name) => MoveLane(s, l, name, s.consumers[name].hand.topic)
    case Take(name, topic) => MoveLane(s, l, name, topic)
  }

  function MoveLane(s: State, l: Label, name: string, topic: string): State
    requires HasLane(s, name, topic) && LaneLabel(s, l, name, topic)
  {
    s.(consumers := s.consumers[name := ConsumerAfter(Log(s.logs, topic), s.consumers[name], l, topic)])
  }

  function ConsumerAfter(log: seq<Document>, c: Consumer, l: Label, topic: string): Consumer
    requires topic in c.lanes && LaneMoves(log, c.hand, l, topic, c.lanes[topic])
  {
    var (hand, lane) := LaneAfter(log, c.hand, l, topic, c.lanes[topic]);
    Consumer(hand, c.lanes[topic := lane])
  }

  /** `l` is a step of consumer `name` on its lane for `topic`, and can be taken but for a full channel. */
  predicate LaneLabel(s: State, l: Label, name: string, topic: string)
    requires HasLane(s, name, topic)
  {
    && (l.Receive? || l.Enqueue? || l.Mark? || l.Take?)
    && l.name == name && (l.Receive? || l.Take? ==> l.topic == topic)
    && LaneMoves(Log(s.logs, topic), s.consumers[name].hand, l, topic, LaneOf(s, name, topic))
  }

  predicate LaneMoves(log: seq<Document>, hand: Hand, l: Label, topic: string, lane: Lane) {
    match l
    case Receive(_, _) => hand.Idle? && lane.next < |log|
    case Enqueue(_) => hand.Holding? && hand.topic == topic
    case Mark(_) => hand == Enqueued(topic)
    case Take(_, _) => lane.chan != []
    case _ => false
  }

  function LaneAfter(log: seq<Document>, hand: Hand, l: Label, topic: string, lane: Lane): (Hand, Lane)
    requires LaneMoves(log, hand, l, topic, lane)
  {
    match l
    case Receive(_, _) => (Holding(topic, log[lane.next]), lane.(next := lane.next + 1))
    case Enqueue(_) => (Enqueued(topic), lane.(chan := lane.chan + [hand.doc]))
    case Mark(_) => (Idle, lane.(marked := lane.marked + 1))
    case Take(_, _) => (hand, lane.(chan := lane.chan[1..], delivered := lane.delivered + [lane.chan[0]]))
  }

  /** A new consumer group starts at the newest offset of every configured topic. */
  function SubscribeConsumer(limits: Limits, s: State, name: string): State {
    var lanes := map topic | topic in limits :: Lane(|Log(s.logs, topic)|, |Log(s.logs, topic)|, [], 0, []);
    s.(consumers := s.consumers[name := Consumer(Idle, lanes)])
  }

  // ---------------------------------------------------------------- what every run keeps

  /** What has been read from the log but is not yet in the channel. */
  function InHand(hand: Hand, topic: string): seq<Document> {
    if hand.Holding? && hand.topic == topic then [hand.doc] else []
  }

  function Unmarked(hand: Hand, topic: string): nat {
    if hand == Enqueued(topic) then 1 else 0
  }

  /** Delivered, queued and held documents are the log from the subscription point, in order;
      a document is marked as soon as the one after it is read. */
  ghost predicate LaneInv(limit: nat, log: seq<Document>, held: seq<Document>, unmarked: nat, lane: Lane) {
    && lane.start <= lane.next <= |log|
    && lane.delivered + lane.chan + held == log[lane.start..lane.next]
    && |lane.chan| <= limit
    && lane.marked + unmarked == |lane.delivered| + |lane.chan|
  }

  ghost predicate ConsumerInv(limits: Limits, logs: Logs, c: Consumer) {
    && c.lanes.Keys == limits.Keys
    && (!c.hand.Idle? ==> c.hand.topic in limits)
    && forall topic :: topic in c.lanes ==> 
          LaneInv(limits[topic], Log(logs, topic), InHand(c.hand, topic), Unmarked(c.hand, topic), c.lanes[topic])
  }

  /** Every id in the logs is there once. */
  ghost predicate LogsInv(logs: Logs, places: Places) {
    forall topic, i :: 0 <= i < |Log(logs, topic)| ==> Placed(logs, places, topic, i)
  }

  ghost predicate Placed(logs: Logs, places: Places, topic: string, i: nat)
    requires i < |Log(logs, topic)|
  {
    var doc := Log(logs, topic)[i];
    WellFormed(doc) && doc.id in places && places[doc.id] == (topic, i)
  }

  ghost predicate Inv(limits: Limits, s: State) {
    LogsInv(s.logs, s.places) && ConsumersInv(limits, s.logs, s.consumers)
  }

  ghost predicate ConsumersInv(limits: Limits, logs: Logs, consumers: map<string, Consumer>) {
    forall name :: name in consumers ==> ConsumerInv(limits, logs, consumers[name])
  }

  lemma ReplaceConsumer(limits: Limits, logs: Logs, consumers: map<string, Consumer>, name: string, c: Consumer)
    requires ConsumersInv(limits, logs, consumers) && ConsumerInv(limits, logs, c)
    ensures ConsumersInv(limits, logs, consumers[name := c])
  {
  }

  lemma PutKeepsLogsInv(logs: Logs, places: Places, topic: string, doc: Document)
    requires LogsInv(logs, places) && WellFormed(doc) && doc.id !in places
    ensures var log := Log(logs, topic);
            LogsInv(logs[topic := log + [doc]], places[doc.id := (topic, |log|)])
  {
    var log := Log(logs, topic);
    var logs', places' := logs[topic := log + [doc]], places[doc.id := (topic, |log|)];
    forall t, i | 0 <= i < |Log(logs', t)| ensures Placed(logs', places', t, i) {
      assert i < |Log(logs, t)| ==> Placed(logs, places, t, i);
    }
  }

  lemma LaneInvOfLongerLog(limit: nat, log: seq<Document>, longer: seq<Document>, held: seq<Document>, unmarked: nat,
                           lane: Lane)
    requires LaneInv(limit, log, held, unmarked, lane) && log <= longer
    ensures LaneInv(limit, longer, held, unmarked, lane)
  {
    assert longer[lane.start..lane.next] == log[lane.start..lane.next];
  }

  lemma ConsumerInvOfLongerLogs(limits: Limits, logs: Logs, longer: Logs, c: Consumer)
    requires ConsumerInv(limits, logs, c) && forall t :: Log(logs, t) <= Log(longer, t)
    ensures ConsumerInv(limits, longer, c)
  {
    forall t | t in c.lanes
      ensures LaneInv(limits[t], Log(longer, t), InHand(c.hand, t), Unmarked(c.hand, t), c.lanes[t])
    {
      LaneInvOfLongerLog(limits[t], Log(logs, t), Log(longer, t), InHand(c.hand, t), Unmarked(c.hand, t), c.lanes[t]);
    }
  }

  /** A step on one lane leaves the invariants of the consumer's other lanes alone. */
  lemma ConsumerStep(limits: Limits, logs: Logs, c: Consumer, l: Label, topic: string)
    requires ConsumerInv(limits, logs, c) && topic in c.lanes
    requires LaneMoves(Log(logs, topic), c.hand, l, topic, c.lanes[topic])
    requires l.Enqueue? ==> |c.lanes[topic].chan| < limits[topic]
    ensures ConsumerInv(limits, logs, ConsumerAfter(Log(logs, topic), c, l, topic))
  {
    var (hand, lane) := LaneAfter(Log(logs, topic), c.hand, l, topic, c.lanes[topic]);
    LaneStep(limits[topic], Log(logs, topic), c.hand, l, topic, c.lanes[topic]);
    forall t | t in c.lanes && t != topic
      ensures InHand(hand, t) == InHand(c.hand, t) && Unmarked(hand, t) == Unmarked(c.hand, t)
    {
    }
    ReplaceLane(limits, logs, c, hand, topic, lane);
  }

  lemma ReplaceLane(limits: Limits, logs: Logs, c: Consumer, hand: Hand, topic: string, lane: Lane)
    requires ConsumerInv(limits, logs, c) && topic in c.lanes && (!hand.Idle? ==> hand.topic in limits)
    requires LaneInv(limits[topic], Log(logs, topic), InHand(hand, topic), Unmarked(hand, topic), lane)
    requires forall t :: t in c.lanes && t != topic ==>
               InHand(hand, t) == InHand(c.hand, t) && Unmarked(hand, t) == Unmarked(c.hand, t)
    ensures ConsumerInv(limits, logs, Consumer(hand, c.lanes[topic := lane]))
  {
  }

  lemma LaneStep(limit: nat, log: seq<Document>, hand: Hand, l: Label, topic: string, lane: Lane)
    requires LaneInv(limit, log, InHand(hand, topic), Unmarked(hand, topic), lane)
    requires LaneMoves(log, hand, l, topic, lane) && (l.Enqueue? ==> |lane.chan| < limit)
    ensures var (hand', lane') := LaneAfter(log, hand, l, topic, lane);
            LaneInv(limit, log, InHand(hand', topic), Unmarked(hand', topic), lane')
  {
    match l
    case Receive(_, _) =>
      assert log[lane.start..lane.next+1] == log[lane.start..lane.next] + [log[lane.next]];
    case Enqueue(_) =>
      assert lane.delivered + (lane.chan + [hand.doc]) + [] == lane.delivered + lane.chan + [hand.doc];
    case Mark(_) =>
    case Take(_, _) =>
      assert (lane.delivered + [lane.chan[0]]) + lane.chan[1..] == lane.delivered + lane.chan;
  }

  lemma StepKeepsInv(limits: Limits, s: State, l: Label)
    requires Inv(limits, s) && Enabled(limits, s, l)
    ensures Inv(limits, Apply(limits, s, l))
  {
    match l
    case Put(topic, doc) =>
      PutKeepsLogsInv(s.logs, s.places, topic, doc);
      forall name | name in s.consumers ensures ConsumerInv(limits, Apply(limits, s, l).logs, s.consumers[name]) {
        ConsumerInvOfLongerLogs(limits, s.logs, Apply(limits, s, l).logs, s.consumers[name]);
      }
    case Subscribe(name) =>
    case Receive(name, topic) => LaneLabelKeepsInv(limits, s, l, name, topic);
    case Enqueue(name) => LaneLabelKeepsInv(limits, s, l, name, s.consumers[name].hand.topic);
    case Mark(name) => LaneLabelKeepsInv(limits, s, l, name, s.consumers[name].hand.topic);
    case Take(name, topic) => LaneLabelKeepsInv(limits, s, l, name, topic);
  }

  lemma LaneLabelKeepsInv(limits: Limits, s: State, l: Label, name: string, topic: string)
    requires Inv(limits, s) && HasLane(s, name, topic) && LaneLabel(s, l, name, topic)
    requires l.Enqueue? ==> topic in limits && |LaneOf(s, name, topic).chan| < limits[topic]
    ensures Inv(limits, MoveLane(s, l, name, topic))
  {
    ConsumerStep(limits, s.logs, s.consumers[name], l, topic);
    ReplaceConsumer(limits, s.logs, s.consumers, name, ConsumerAfter(Log(s.logs, topic), s.consumers[name], l, topic));
  }

  /** A run of the cache: each label takes one state to the next. */
  ghost predicate IsRun(limits: Limits, states: seq<State>, labels: seq<Label>) {
    && |states| == |labels| + 1 && states[0] == INIT
    && forall i :: 0 <= i < |labels| ==>
         Enabled(limits, states[i], labels[i]) && states[i+1] == Apply(limits, states[i], labels[i])
  }

  ghost predicate Reachable(limits: Limits, s: State) {
    exists states, labels :: IsRun(limits, states, labels) && states[|labels|] == s
  }

  lemma {:induction false} RunKeepsInv(limits: Limits, states: seq<State>, labels: seq<Label>, n: nat)
    requires IsRun(limits, states, labels) && n <= |labels|
    ensures Inv(limits, states[n])
  {
    if n > 0 {
      RunKeepsInv(limits, states, labels, n - 1);
      StepKeepsInv(limits, states[n-1], labels[n-1]);
    }
  }

  lemma ReachableInv(limits: Limits, s: State)
    requires Reachable(limits, s)
    ensures Inv(limits, s)
  {
    var states, labels :| IsRun(limits, states, labels) && states[|labels|] == s;
    RunKeepsInv(limits, states, labels, |labels|);
  }

  // ---------------------------------------------------------------- delivery

  lemma LanePrefix(limit: nat, log: seq<Document>, held: seq<Document>, unmarked: nat, lane: Lane)
    requires LaneInv(limit, log, held, unmarked, lane)
    ensures Place(lane) + |lane.chan| <= lane.next <= |log|
    ensures lane.delivered == log[lane.start..Place(lane)]
    ensures lane.chan != [] ==> lane.chan[0] == log[Place(lane)]
  {
    var all, n := lane.delivered + lane.chan + held, |lane.delivered|;
    assert |all| == lane.next - lane.start && all == log[lane.start..lane.next];
    assert lane.delivered == all[..n] == log[lane.start..lane.start+n];
    assert lane.chan != [] ==> lane.chan[0] == all[n] == log[lane.start+n];
  }

  lemma LaneOfInv(limits: Limits, s: State, name: string, topic: string)
    requires Inv(limits, s) && HasLane(s, name, topic)
    ensures var lane, hand := LaneOf(s, name, topic), s.consumers[name].hand;
            && topic in limits
            && LaneInv(limits[topic], Log(s.logs, topic), InHand(hand, topic), Unmarked(hand, topic), lane)
  {
    assert ConsumerInv(limits, s.logs, s.consumers[name]);
  }

  lemma DistinctRun(logs: Logs, places: Places, topic: string, from: nat, to: nat)
    requires LogsInv(logs, places) && from <= to <= |Log(logs, topic)|
    ensures DistinctIds(Log(logs, topic)[from..to])
  {
    var part := Log(logs, topic)[from..to];
    forall j, k | 0 <= j < k < |part| ensures part[j].id != part[k].id {
      assert Placed(logs, places, topic, from + j) && Placed(logs, places, topic, from + k);
    }
  }

  /** The document is in the logs, at the place recorded for its id: so one id has one document. */
  ghost predicate Logged(s: State, doc: Document) {
    && doc.id in s.places
    && (var (topic, i) := s.places[doc.id]; i < |Log(s.logs, topic)| && Log(s.logs, topic)[i] == doc)
  }

  /** `Get` has returned the document to this consumer. */
  ghost predicate Given(s: State, name: string, doc: Document) {
    && Logged(s, doc)
    && (var (topic, i) := s.places[doc.id];
        HasLane(s, name, topic) && LaneOf(s, name, topic).start <= i < Place(LaneOf(s, name, topic)))
  }

  /** The document was logged before this consumer subscribed. */
  ghost predicate Skipped(s: State, name: string, doc: Document) {
    && Logged(s, doc)
    && (var (topic, i) := s.places[doc.id]; HasLane(s, name, topic) && i < LaneOf(s, name, topic).start)
  }

  lemma LoggedStays(limits: Limits, s: State, l: Label, doc: Document)
    requires Enabled(limits, s, l) && Logged(s, doc)
    ensures Logged(Apply(limits, s, l), doc)
  {
  }

  lemma GivenStays(limits: Limits, s: State, l: Label, name: string, doc: Document)
    requires Enabled(limits, s, l) && Given(s, name, doc)
    ensures Given(Apply(limits, s, l), name, doc)
  {
    LoggedStays(limits, s, l, doc);
  }

  lemma SkippedStays(limits: Limits, s: State, l: Label, name: string, doc: Document)
    requires Enabled(limits, s, l) && Skipped(s, name, doc)
    ensures Skipped(Apply(limits, s, l), name, doc)
  {
    LoggedStays(limits, s, l, doc);
  }

  function Place(lane: Lane): nat {
    lane.start + |lane.delivered|
  }

  lemma OfferedPlace(limits: Limits, s: State, name: string, topic: string)
    requires Inv(limits, s) && HasLane(s, name, topic) && LaneOf(s, name, topic).chan != []
    ensures var lane, log := LaneOf(s, name, topic), Log(s.logs, topic);
            Place(lane) < |log| && lane.chan[0] == log[Place(lane)]
  {
    LaneOfInv(limits, s, name, topic);
    var lane, hand := LaneOf(s, name, topic), s.consumers[name].hand;
    LanePrefix(limits[topic], Log(s.logs, topic), InHand(hand, topic), Unmarked(hand, topic), lane);
  }

  lemma LogPlace(limits: Limits, s: State, topic: string, i: nat)
    requires Inv(limits, s) && i < |Log(s.logs, topic)|
    ensures Placed(s.logs, s.places, topic, i)
  {
  }

  lemma TakeMovesPlace(limits: Limits, s: State, name: string, topic: string)
    requires Enabled(limits, s, Take(name, topic))
    ensures var s' := Apply(limits, s, Take(name, topic));
            && HasLane(s', name, topic) && Place(LaneOf(s', name, topic)) == Place(LaneOf(s, name, topic)) + 1
            && s'.logs == s.logs && s'.places == s.places
  {
  }

  /** The document that `Get` takes next is logged, and has not been given to this consumer before. */
  lemma OfferedIsNew(limits: Limits, s: State, name: string, topic: string)
    requires Inv(limits, s) && HasLane(s, name, topic) && LaneOf(s, name, topic).chan != []
    ensures Enabled(limits, s, Take(name, topic))
    ensures var doc := LaneOf(s, name, topic).chan[0];
            && Logged(s, doc) && !Given(s, name, doc)
            && Given(Apply(limits, s, Take(name, topic)), name, doc)
  {
    OfferedPlace(limits, s, name, topic);
    LogPlace(limits, s, topic, Place(LaneOf(s, name, topic)));
    TakeMovesPlace(limits, s, name, topic);
  }

  lemma PlaceInLog(limits: Limits, s: State, name: string, topic: string)
    requires Inv(limits, s) && HasLane(s, name, topic)
    ensures LaneOf(s, name, topic).start <= Place(LaneOf(s, name, topic)) <= |Log(s.logs, topic)|
  {
    LaneOfInv(limits, s, name, topic);
    var lane, hand := LaneOf(s, name, topic), s.consumers[name].hand;
    LanePrefix(limits[topic], Log(s.logs, topic), InHand(hand, topic), Unmarked(hand, topic), lane);
  }

  lemma LaneProgress(limits: Limits, s: State, l: Label, name: string, topic: string)
    requires Enabled(limits, s, l) && HasLane(Apply(limits, s, l), name, topic)
    ensures var lane := LaneOf(Apply(limits, s, l), name, topic);
            && (!HasLane(s, name, topic) ==> lane.start == Place(lane))
            && (HasLane(s, name, topic) ==>
                  && lane.start == LaneOf(s, name, topic).start
                  && Place(lane) == Place(LaneOf(s, name, topic)) + if l == Take(name, topic) then 1 else 0)
  {
  }

  /** All that `Get` has returned to this consumer for this topic. */
  function Delivered(s: State, name: string, topic: string): seq<Document> {
    if HasLane(s, name, topic) then LaneOf(s, name, topic).delivered else []
  }

  lemma DeliveredAfter(limits: Limits, s: State, l: Label, name: string, topic: string)
    requires Enabled(limits, s, l)
    ensures l == Take(name, topic) ==>
              && CanTake(s, name, topic)
              && Delivered(Apply(limits, s, l), name, topic)
                 == Delivered(s, name, topic) + [LaneOf(s, name, topic).chan[0]]
    ensures l != Take(name, topic) ==> Delivered(Apply(limits, s, l), name, topic) == Delivered(s, name, topic)
  {
  }

  lemma LogsGrow(limits: Limits, s: State, l: Label, topic: string)
    requires Enabled(limits, s, l)
    ensures Log(s.logs, topic) <= Log(Apply(limits, s, l).logs, topic)
  {
  }

  lemma GivenAt(limits: Limits, s: State, name: string, topic: string, i: nat)
    requires Inv(limits, s) && HasLane(s, name, topic)
    requires LaneOf(s, name, topic).start <= i < Place(LaneOf(s, name, topic))
    ensures i < |Log(s.logs, topic)| && Given(s, name, Log(s.logs, topic)[i])
  {
    PlaceInLog(limits, s, name, topic);
    LogPlace(limits, s, topic, i);
  }

  lemma GivenBetween(limits: Limits, s: State, s': State, name: string, topic: string, i: nat, doc: Document)
    requires Inv(limits, s) && HasLane(s, name, topic)
    requires Log(s.logs, topic) <= Log(s'.logs, topic) && i < |Log(s'.logs, topic)| && Log(s'.logs, topic)[i] == doc
    requires LaneOf(s, name, topic).start <= i <= Place(LaneOf(s, name, topic))
    requires i == Place(LaneOf(s, name, topic)) ==> CanTake(s, name, topic)
    ensures Given(s, name, doc) || (CanTake(s, name, topic) && doc == LaneOf(s, name, topic).chan[0])
  {
    if i < Place(LaneOf(s, name, topic)) {
      GivenAt(limits, s, name, topic, i);
    } else {
      OfferedPlace(limits, s, name, topic);
    }
  }

  /** A document is given to a consumer only by the `Get` that takes it. */
  lemma NewlyGiven(limits: Limits, s: State, l: Label, name: string, doc: Document)
    requires Inv(limits, s) && Enabled(limits, s, l) && Given(Apply(limits, s, l), name, doc)
    ensures Given(s, name, doc)
         || (l.Take? && l.name == name && CanTake(s, name, l.topic) && doc == LaneOf(s, name, l.topic).chan[0])
  {
    var s' := Apply(limits, s, l);
    var (topic, i) := s'.places[doc.id];
    LaneProgress(limits, s, l, name, topic);
    LogsGrow(limits, s, l, topic);
    GivenBetween(limits, s, s', name, topic, i, doc);
    if l != Take(name, topic) {
      GivenAt(limits, s, name, topic, i);
    }
  }

  predicate CanTake(s: State, name: string, topic: string) {
    HasLane(s, name, topic) && LaneOf(s, name, topic).chan != []
  }

  lemma LoggedIsWellFormed(limits: Limits, s: State, doc: Document)
    requires Inv(limits, s) && Logged(s, doc)
    ensures WellFormed(doc)
  {
    var (topic, i) := s.places[doc.id];
    assert Placed(s.logs, s.places, topic, i);
  }

  /** What `Get` has returned, what is in the channel, and what has been read but not yet sent, are together
      the log from the subscription point up to the read position. */
  lemma Delivery(limits: Limits, s: State, name: string, topic: string)
    requires Reachable(limits, s) && HasLane(s, name, topic)
    ensures var lane, log := LaneOf(s, name, topic), Log(s.logs, topic);
            && lane.start <= lane.next <= |log|
            && lane.delivered + lane.chan + InHand(s.consumers[name].hand, topic) == log[lane.start..lane.next]
  {
    ReachableInv(limits, s);
    LaneOfInv(limits, s, name, topic);
  }

  /** So a consumer has been given a prefix of the stream, and no document of it twice. */
  lemma DeliveredOnce(limits: Limits, s: State, name: string, topic: string)
    requires Reachable(limits, s) && HasLane(s, name, topic)
    ensures var lane, log := LaneOf(s, name, topic), Log(s.logs, topic);
            && Place(lane) <= |log| && lane.delivered == log[lane.start..Place(lane)]
            && DistinctIds(lane.delivered)
  {
    ReachableInv(limits, s);
    LaneOfInv(limits, s, name, topic);
    var lane, hand := LaneOf(s, name, topic), s.consumers[name].hand;
    LanePrefix(limits[topic], Log(s.logs, topic), InHand(hand, topic), Unmarked(hand, topic), lane);
    DistinctRun(s.logs, s.places, topic, lane.start, Place(lane));
  }

  /** Two consumers that have both been given the document at some place of a topic's log
      have been given the same one: they see one stream, in one order. */
  lemma ConsumersSeeOneStream(limits: Limits, s: State, name: string, other: string, topic: string, place: nat)
    requires Reachable(limits, s) && HasLane(s, name, topic) && HasLane(s, other, topic)
    requires var a, b := LaneOf(s, name, topic), LaneOf(s, other, topic);
             a.start <= place < a.start + |a.delivered| && b.start <= place < b.start + |b.delivered|
    ensures var a, b := LaneOf(s, name, topic), LaneOf(s, other, topic);
            a.delivered[place - a.start] == b.delivered[place - b.start]
  {
    DeliveredOnce(limits, s, name, topic);
    DeliveredOnce(limits, s, other, topic);
    var a, b, log := LaneOf(s, name, topic), LaneOf(s, other, topic), Log(s.logs, topic);
    assert a.delivered[place - a.start] == log[place] == b.delivered[place - b.start];
  }

  /** A document may be marked before it is delivered, but never more than a channel's worth of them;
      of the documents sent on the channel at most one is not yet marked. */
  lemma OffsetBound(limits: Limits, s: State, name: string, topic: string)
    requires Reachable(limits, s) && HasLane(s, name, topic)
    ensures topic in limits
    ensures var lane := LaneOf(s, name, topic);
            && |lane.delivered| + |lane.chan| <= lane.marked + 1
            && lane.marked <= |lane.delivered| + |lane.chan|
            && lane.marked - |lane.delivered| <= |lane.chan| <= limits[topic]
  {
    ReachableInv(limits, s);
    LaneOfInv(limits, s, name, topic);
  }

  // ---------------------------------------------------------------- the calls of the cache

  /** The state once `Get` has taken n documents off a channel. */
  function Taken(s: State, name: string, topic: string, n: nat): State
    requires HasLane(s, name, topic) && n <= |LaneOf(s, name, topic).chan|
  {
    var c, lane := s.consumers[name], LaneOf(s, name, topic);
    var lane' := lane.(chan := lane.chan[n..], delivered := lane.delivered + lane.chan[..n]);
    s.(consumers := s.consumers[name := c.(lanes := c.lanes[topic := lane'])])
  }

  /** `Get` is as many receives from the channel, one after the other. */
  lemma TakenIsTakes(limits: Limits, s: State, name: string, topic: string, n: nat)
    requires HasLane(s, name, topic) && n <= |LaneOf(s, name, topic).chan|
    ensures n == 0 ==> Taken(s, name, topic, n) == s
    ensures n > 0 ==>
              && Enabled(limits, Taken(s, name, topic, n - 1), Take(name, topic))
              && Apply(limits, Taken(s, name, topic, n - 1), Take(name, topic)) == Taken(s, name, topic, n)
  {
    var c, lane := s.consumers[name], LaneOf(s, name, topic);
    if n == 0 {
      assert lane.chan[0..] == lane.chan && lane.delivered + lane.chan[..0] == lane.delivered;
      assert c.lanes[topic := lane] == c.lanes && s.consumers[name := c] == s.consumers;
    } else {
      assert lane.chan[n-1..][1..] == lane.chan[n..] && lane.chan[n-1..][0] == lane.chan[n-1];
      assert lane.delivered + lane.chan[..n-1] + [lane.chan[n-1]] == lane.delivered + lane.chan[..n];
      var s' := Taken(s, name, topic, n - 1);
      assert s'.consumers[name].lanes[topic := LaneOf(Taken(s, name, topic, n), name, topic)]
          == Taken(s, name, topic, n).consumers[name].lanes;
    }
  }

  /** The state once the message in hand has been sent on the channel and marked. */
  function SentAndMarked(s: State, name: string): State
    requires name in s.consumers && s.consumers[name].hand.Holding? && HasLane(s, name, s.consumers[name].hand.topic)
  {
    var hand, lanes := s.consumers[name].hand, s.consumers[name].lanes;
    var lane := lanes[hand.topic];
    var lane' := lane.(chan := lane.chan + [hand.doc], marked := lane.marked + 1);
    s.(consumers := s.consumers[name := Consumer(Idle, lanes[hand.topic := lane'])])
  }

  lemma Overwritten<V>(m: map<string, V>, key: string, x: V, y: V)
    ensures m[key := x][key := y] == m[key := y]
  {
  }

  /** Sending a message on the channel and marking it, without another step in between. */
  lemma SendAndMarkSteps(limits: Limits, s: State, name: string)
    requires Enabled(limits, s, Enqueue(name))
    ensures var s1 := Apply(limits, s, Enqueue(name));
            Enabled(limits, s1, Mark(name)) && Apply(limits, s1, Mark(name)) == SentAndMarked(s, name)
  {
    var hand, lanes := s.consumers[name].hand, s.consumers[name].lanes;
    var topic, lane := hand.topic, lanes[hand.topic];
    var lane1 := lane.(chan := lane.chan + [hand.doc]);
    var c1 := Consumer(Enqueued(topic), lanes[topic := lane1]);
    var s1 := Apply(limits, s, Enqueue(name));
    assert s1 == s.(consumers := s.consumers[name := c1]);
    Overwritten(lanes, topic, lane1, lane1.(marked := lane.marked + 1));
    Overwritten(s.consumers, name, c1, SentAndMarked(s, name).consumers[name]);
  }

  class KafkaCache {
    var logs: Logs
    ghost var places: Places
    var consumers: map<string, Consumer>
    const limits: Limits

    ghost function Model(): State
      reads this
    {
      State(logs, places, consumers)
    }

    constructor (limits: Limits)
      ensures Model() == INIT && this.limits == limits
    {
      logs, places, consumers := map[], map[], map[];
      this.limits := limits;
    }

    /** Sends a document to the topic's log; an error from the producer leaves the log alone. */
    method Put(topic: string, doc: Document, sent: bool) returns (r: Result<Document>)
      requires NewDocument(Model(), doc)
      modifies this
      ensures r == if sent then Ok(doc) else Err("send")
      ensures Model() == if sent then Apply(limits, old(Model()), Label.Put(topic, doc)) else old(Model())
      ensures Log(logs, topic) == Log(old(logs), topic) + (if sent then [doc] else [])
      ensures consumers == old(consumers) && forall t :: t != topic ==> Log(logs, t) == Log(old(logs), t)
    {
      if !sent {
        return Err("send");
      }
      var log := Log(logs, topic);
      places := places[doc.id := (topic, |log|)];
      logs := logs[topic := log + [doc]];
      r := Ok(doc);
    }

    /** Starts the consumer the first time its name is seen; topics that are not configured are refused. */
    method Subscribe(name: string, topic: string, started: bool) returns (ok: bool)
      modifies this
      ensures ok <==> topic in limits && (name in old(consumers) || started)
      ensures Model() == if ok && name !in old(consumers) then Apply(limits, old(Model()), Label.Subscribe(name))
                         else old(Model())
      ensures logs == old(logs)
      ensures forall n :: n in old(consumers) ==> n in consumers && consumers[n] == old(consumers)[n]
      ensures ok && name !in old(consumers) ==>
                && name in consumers && consumers[name].hand.Idle?
                && forall t :: t in limits ==>
                     && t in consumers[name].lanes && consumers[name].lanes[t].next == |Log(logs, t)|
                     && consumers[name].lanes[t].chan == [] && consumers[name].lanes[t].delivered == []
    {
      if topic !in limits {
        return false;
      }
      if name !in consumers {
        if !started {
          return false;
        }
        var lanes := map t | t in limits :: Lane(|Log(logs, t)|, |Log(logs, t)|, [], 0, []);
        consumers := consumers[name := Consumer(Idle, lanes)];
      }
      ok := true;
    }

    /** One turn of the loop over a consumer's messages; with no room in the channel it waits before sending. */
    method HandleMessage(name: string, topic: string)
      requires topic in limits
      requires HasLane(Model(), name, topic) && LaneLabel(Model(), Label.Receive(name, topic), name, topic)
      modifies this
      ensures var s1 := Apply(limits, old(Model()), Label.Receive(name, topic));
              if Enabled(limits, s1, Label.Enqueue(name)) then
                var s2 := Apply(limits, s1, Label.Enqueue(name));
                Enabled(limits, s2, Label.Mark(name)) && Model() == Apply(limits, s2, Label.Mark(name))
              else Model() == s1
      ensures var c, c' := old(consumers)[name], consumers[name];
              var lane, doc := c.lanes[topic], Log(logs, topic)[c.lanes[topic].next];
              if |lane.chan| < limits[topic] then
                && c'.hand.Idle?
                && c'.lanes == c.lanes[topic := lane.(next := lane.next + 1, chan := lane.chan + [doc],
                                                      marked := lane.marked + 1)]
              else
                && c'.hand == Holding(topic, doc)
                && c'.lanes == c.lanes[topic := lane.(next := lane.next + 1)]
      ensures logs == old(logs) && consumers.Keys == old(consumers).Keys
      ensures forall n :: n in consumers && n != name ==> consumers[n] == old(consumers)[n]
    {
      ghost var s := Model();
      var lanes := consumers[name].lanes;
      var lane := lanes[topic];
      var document := Log(logs, topic)[lane.next];
      consumers := consumers[name := Consumer(Holding(topic, document), lanes[topic := lane.(next := lane.next + 1)])];
      assert Model() == Apply(limits, s, Label.Receive(name, topic));
      if |lane.chan| < limits[topic] {
        SendAndMark(name);
      }
    }

    /** Sends the message in hand, now that there is room, and marks it. */
    method SendAndMark(name: string)
      requires Enabled(limits, Model(), Label.Enqueue(name))
      modifies this
      ensures var s2 := Apply(limits, old(Model()), Label.Enqueue(name));
              Enabled(limits, s2, Label.Mark(name)) && Model() == Apply(limits, s2, Label.Mark(name))
      ensures logs == old(logs) && name in consumers
      ensures var c := old(consumers)[name];
              var lane := c.lanes[c.hand.topic];
              consumers == old(consumers)[name := Consumer(Idle, c.lanes[c.hand.topic :=
                lane.(chan := lane.chan + [c.hand.doc], marked := lane.marked + 1)])]
    {
      ghost var s := Model();
      SendAndMarkSteps(limits, s, name);
      var hand, lanes := consumers[name].hand, consumers[name].lanes;
      var lane := lanes[hand.topic];
      lane := lane.(chan := lane.chan + [hand.doc]);
      lane := lane.(marked := lane.marked + 1);
      consumers := consumers[name := Consumer(Idle, lanes[hand.topic := lane])];
    }

    /** At most `count` documents, oldest first, without waiting for more. A topic that is not configured
        ends the program. */
    method Get(name: string, topic: string, count: int) returns (docs: seq<Document>)
      requires topic in limits
      modifies this
      ensures !HasLane(old(Model()), name, topic) ==> docs == [] && Model() == old(Model())
      ensures HasLane(old(Model()), name, topic) ==>
                (var chan := LaneOf(old(Model()), name, topic).chan;
                 && |docs| == Min(AtLeastZero(count), |chan|)
                 && docs == chan[..|docs|]
                 && Model() == Taken(old(Model()), name, topic, |docs|))
    {
      docs := [];
      if name !in consumers || topic !in consumers[name].lanes {
        return;
      }
      ghost var s := Model();
      ghost var chan := LaneOf(s, name, topic).chan;
      var left := count;
      TakenIsTakes(limits, s, name, topic, 0);
      while left > 0
        invariant |docs| <= |chan| && docs == chan[..|docs|]
        invariant left == count - |docs| && (left >= 0 || docs == [])
        invariant Model() == Taken(s, name, topic, |docs|)
      {
        var lane := consumers[name].lanes[topic];
        if |lane.chan| == 0 {
          break;
        }
        left := left - 1;
        docs := docs + [lane.chan[0]];
        TakenIsTakes(limits, s, name, topic, |docs|);
        var lane' := lane.(chan := lane.chan[1..], delivered := lane.delivered + [lane.chan[0]]);
        consumers := consumers[name := Consumer(consumers[name].hand, consumers[name].lanes[topic := lane'])];
      }
    }
  }
}
