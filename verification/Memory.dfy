/** The in-memory cache: documents by topic and id, and who has read which id.

`Get` hands a document to the first customer that asks and then forgets it, so unlike the Kafka cache
this one does not give every customer the whole stream. */
module Memory {
  import opened Wrappers
  import opened Documents

  type Vals = map<string, map<string, Document>>

  type ReadIds = map<string, map<string, set<string>>>

  datatype Cache = Cache(vals: Vals, topics: map<string, set<string>>, read: ReadIds)

  const EMPTY := Cache(map[], map[], map[])

  function HeldIn(vals: Vals, topic: string): map<string, Document> {
    if topic in vals then vals[topic] else map[]
  }

  function ReadBy(read: ReadIds, customer: string, topic: string): set<string> {
    if customer in read && topic in read[customer] then read[customer][topic] else {}
  }

  function TopicsOf(topics: map<string, set<string>>, customer: string): set<string> {
    if customer in topics then topics[customer] else {}
  }

  function Unread(c: Cache, customer: string, topic: string): set<string> {
    HeldIn(c.vals, topic).Keys - ReadBy(c.read, customer, topic)
  }

  function Subscribed(c: Cache, customer: string, topic: string): Cache {
    c.(topics := c.topics[customer := TopicsOf(c.topics, customer) + {topic}])
  }

  /** The customer has read these ids of the topic too; nothing else has been read. */
  ghost predicate Marks(read: ReadIds, customer: string, topic: string, ids: set<string>, read': ReadIds) {
    forall other, t ::
      ReadBy(read', other, t) == ReadBy(read, other, t) + if other == customer && t == topic then ids else {}
  }

  /** Precisely these ids are taken from the topic and recorded as read by the customer. */
  ghost predicate Hands(c: Cache, customer: string, topic: string, ids: set<string>, c': Cache) {
    && topic in c.vals
    && c'.vals == c.vals[topic := c.vals[topic] - ids]
    && c'.topics == c.topics
    && Marks(c.read, customer, topic, ids, c'.read)
  }

  /** Distinct documents of the topic that the customer has not read. */
  ghost predicate UnreadDocs(c: Cache, customer: string, topic: string, docs: seq<Document>) {
    && DistinctIds(docs) && topic in c.vals
    && forall doc :: doc in docs ==> doc.id in Unread(c, customer, topic) && c.vals[topic][doc.id] == doc
  }

  /** `Get` of a topic that is there: unread documents, as many as there are up to `count`.
      Which ones, is up to the map iteration. */
  ghost predicate GetsExactly(c: Cache, customer: string, topic: string, count: int, docs: seq<Document>, c': Cache) {
    && UnreadDocs(c, customer, topic, docs)
    && |docs| == Min(AtLeastZero(count), |Unread(c, customer, topic)|)
    && Hands(c, customer, topic, Ids(docs), c')
  }

  ghost predicate KeysAreIds(vals: Vals) {
    forall topic :: topic in vals ==> KeysAreIdsOf(vals[topic])
  }

  ghost predicate KeysAreIdsOf(held: map<string, Document>) {
    forall id :: id in held ==> held[id].id == id
  }

  lemma IdsOfMore(docs: seq<Document>, doc: Document)
    ensures Ids(docs + [doc]) == Ids(docs) + {doc.id}
  {
    var more := docs + [doc];
    forall id ensures id in Ids(more) <==> id in Ids(docs) + {doc.id} {
      if id in Ids(docs) {
        var d :| d in docs && d.id == id;
        assert d in more;
      }
      assert more[|docs|] == doc;
    }
  }

  lemma GetsOneMore(c: Cache, customer: string, topic: string, docs: seq<Document>, doc: Document)
    requires UnreadDocs(c, customer, topic, docs) && doc.id !in Ids(docs)
    requires doc.id in Unread(c, customer, topic) && c.vals[topic][doc.id] == doc
    ensures UnreadDocs(c, customer, topic, docs + [doc]) && Ids(docs + [doc]) == Ids(docs) + {doc.id}
  {
    IdsOfMore(docs, doc);
    forall i | 0 <= i < |docs| ensures docs[i].id != doc.id {
      assert docs[i] in docs;
    }
  }

  lemma HandsOneMore(c: Cache, customer: string, topic: string, ids: set<string>, id: string, c1: Cache, c2: Cache)
    requires Hands(c, customer, topic, ids, c1) && Hands(c1, customer, topic, {id}, c2)
    ensures Hands(c, customer, topic, ids + {id}, c2)
  {
    assert c.vals[topic] - ids - {id} == c.vals[topic] - (ids + {id});
    MarksMore(c.read, customer, topic, ids, c1.read, id, c2.read);
  }

  lemma MarksMore(read: ReadIds, customer: string, topic: string, ids: set<string>, read1: ReadIds, id: string,
                  read2: ReadIds)
    requires Marks(read, customer, topic, ids, read1) && Marks(read1, customer, topic, {id}, read2)
    ensures Marks(read, customer, topic, ids + {id}, read2)
  {
    forall other, t
      ensures ReadBy(read2, other, t)
           == ReadBy(read, other, t) + if other == customer && t == topic then ids + {id} else {}
    {
      assert ReadBy(read1, other, t) == ReadBy(read, other, t) + if other == customer && t == topic then ids else {};
    }
  }

  lemma HandsNothing(c: Cache, customer: string, topic: string)
    requires topic in c.vals
    ensures Hands(c, customer, topic, {}, c)
  {
    assert c.vals[topic] - {} == c.vals[topic];
    assert c.vals[topic := c.vals[topic]] == c.vals;
  }

  lemma SubscribedAlready(c: Cache, customer: string, topic: string)
    requires topic in TopicsOf(c.topics, customer)
    ensures Subscribed(c, customer, topic) == c
  {
    assert c.topics[customer] + {topic} == c.topics[customer];
    assert c.topics[customer := c.topics[customer]] == c.topics;
  }

  lemma HandsKeepsKeys(c: Cache, customer: string, topic: string, ids: set<string>, c': Cache)
    requires Hands(c, customer, topic, ids, c') && KeysAreIds(c.vals)
    ensures KeysAreIds(c'.vals)
  {
  }

  /** Where the iteration of `Get` stands: `docs` collected, the keys `todo` still to be visited. */
  ghost predicate Collecting(c: Cache, customer: string, topic: string, count: int, docs: seq<Document>,
                             todo: set<string>, c': Cache) {
    && topic in c.vals && KeysAreIds(c.vals) && todo <= c.vals[topic].Keys && Ids(docs) !! todo
    && Unread(c, customer, topic) - todo <= Ids(docs) <= Unread(c, customer, topic)
    && UnreadDocs(c, customer, topic, docs) && |Ids(docs)| == |docs|
    && (docs == [] || |docs| <= count)
    && Hands(c, customer, topic, Ids(docs), c')
  }

  lemma CollectingStarts(c: Cache, customer: string, topic: string, count: int)
    requires topic in c.vals && KeysAreIds(c.vals)
    ensures Collecting(c, customer, topic, count, [], c.vals[topic].Keys, c)
  {
    HandsNothing(c, customer, topic);
    assert Ids([]) == {};
  }

  /** What the next key turns out to be. */
  lemma CollectingVisits(c: Cache, customer: string, topic: string, count: int, docs: seq<Document>,
                         todo: set<string>, c1: Cache, id: string)
    requires Collecting(c, customer, topic, count, docs, todo, c1) && id in todo
    ensures topic in c1.vals && id in c1.vals[topic] && c1.vals[topic][id].id == id
    ensures id in ReadBy(c1.read, customer, topic) ==> Collecting(c, customer, topic, count, docs, todo - {id}, c1)
    ensures id !in ReadBy(c1.read, customer, topic) ==>
              id in Unread(c, customer, topic) && c1.vals[topic][id] == c.vals[topic][id]
  {
    assert KeysAreIdsOf(c.vals[topic]);
  }

  lemma CollectingMore(c: Cache, customer: string, topic: string, count: int, docs: seq<Document>, todo: set<string>,
                       c1: Cache, doc: Document, c2: Cache)
    requires Collecting(c, customer, topic, count, docs, todo, c1) && |docs| < count
    requires doc.id in todo && doc.id in Unread(c, customer, topic) && doc == c.vals[topic][doc.id]
    requires Hands(c1, customer, topic, {doc.id}, c2)
    ensures Collecting(c, customer, topic, count, docs + [doc], todo - {doc.id}, c2)
  {
    GetsOneMore(c, customer, topic, docs, doc);
    HandsOneMore(c, customer, topic, Ids(docs), doc.id, c1, c2);
  }

  lemma CollectingEnds(c: Cache, customer: string, topic: string, count: int, docs: seq<Document>, todo: set<string>,
                       c': Cache)
    requires Collecting(c, customer, topic, count, docs, todo, c')
    requires todo == {} || |docs| >= count
    ensures GetsExactly(c, customer, topic, count, docs, c') && KeysAreIds(c'.vals)
  {
    Subset(Ids(docs), Unread(c, customer, topic));
    if todo == {} { assert Ids(docs) == Unread(c, customer, topic); }
    HandsKeepsKeys(c, customer, topic, Ids(docs), c');
  }

  /** A document that was held and unread has been taken out and recorded as read. */
  ghost predicate Moved(c: Cache, customer: string, topic: string, doc: Document, c': Cache) {
    && doc.id in HeldIn(c.vals, topic) && HeldIn(c.vals, topic)[doc.id] == doc
    && doc.id !in ReadBy(c.read, customer, topic)
    && doc.id !in HeldIn(c'.vals, topic) && doc.id in ReadBy(c'.read, customer, topic)
  }

  /** `Get` in other words: distinct documents, not more than asked for, each held and unread before and neither after;
      fewer than asked for only if nothing unread is left; and other topics stay as they are. */
  lemma GetsInWords(c: Cache, customer: string, topic: string, count: int, docs: seq<Document>, c': Cache)
    requires GetsExactly(c, customer, topic, count, docs, c')
    ensures DistinctIds(docs) && (if count <= 0 then docs == [] else |docs| <= count)
    ensures forall doc :: doc in docs ==> Moved(c, customer, topic, doc, c')
    ensures |docs| < count ==> forall id :: id in HeldIn(c'.vals, topic) ==> id in ReadBy(c.read, customer, topic)
    ensures forall t :: t != topic ==> HeldIn(c'.vals, t) == HeldIn(c.vals, t)
    ensures forall id :: id in HeldIn(c'.vals, topic) ==>
              id in HeldIn(c.vals, topic) && HeldIn(c'.vals, topic)[id] == HeldIn(c.vals, topic)[id]
  {
    if |docs| < count { AllGot(c, customer, topic, count, docs, c'); }
  }

  lemma AllGot(c: Cache, customer: string, topic: string, count: int, docs: seq<Document>, c': Cache)
    requires GetsExactly(c, customer, topic, count, docs, c') && |docs| < count
    ensures Ids(docs) == Unread(c, customer, topic)
  {
    IdsCount(docs);
    IdsAreUnread(c, customer, topic, docs);
    Subset(Ids(docs), Unread(c, customer, topic));
  }

  lemma IdsAreUnread(c: Cache, customer: string, topic: string, docs: seq<Document>)
    requires UnreadDocs(c, customer, topic, docs)
    ensures Ids(docs) <= Unread(c, customer, topic)
  {
  }

  class MemoryCache {
    var vals: Vals
    var customerTopics: map<string, set<string>>
    var customerReaded: ReadIds

    ghost function Model(): Cache
      reads this
    {
      Cache(vals, customerTopics, customerReaded)
    }

    ghost predicate Valid()
      reads this
    {
      KeysAreIds(vals)
    }

    constructor ()
      ensures Valid() && Model() == EMPTY
    {
      vals, customerTopics, customerReaded := map[], map[], map[];
    }

    method Put(topic: string, doc: Document)
      requires Valid()
      modifies this
      ensures Valid()
      ensures Model() == old(Model()).(vals := old(vals)[topic := HeldIn(old(vals), topic)[doc.id := doc]])
    {
      if topic !in vals {
        vals := vals[topic := map[]];
      }
      vals := vals[topic := vals[topic][doc.id := doc]];
    }

    method Subscribe(customer: string, topic: string) returns (ok: bool)
      modifies this
      ensures ok && Model() == Subscribed(old(Model()), customer, topic)
      ensures customer in customerTopics && topic in customerTopics[customer]
    {
      if customer !in customerTopics {
        customerTopics := customerTopics[customer := {}];
      }
      customerTopics := customerTopics[customer := customerTopics[customer] + {topic}];
      ok := true;
    }

    /** Records who read a document. */
    method MarkReaded(customer: string, topic: string, id: string)
      modifies this`customerReaded
      ensures Marks(old(customerReaded), customer, topic, {id}, customerReaded)
    {
      var topics := if customer in customerReaded then customerReaded[customer] else map[];
      var ids := if topic in topics then topics[topic] else {};
      customerReaded := customerReaded[customer := topics[topic := ids + {id}]];
    }

    /** Deletes a document and records who read it. */
    method Forget(customer: string, topic: string, id: string)
      requires topic in vals
      modifies this
      ensures Hands(old(Model()), customer, topic, {id}, Model())
    {
      vals := vals[topic := vals[topic] - {id}];
      MarkReaded(customer, topic, id);
    }

    /** The part of `Get` under the lock. The iteration deletes from the map it ranges over;
        it visits each key that was there once. */
    method GetLocked(customer: string, topic: string, count: int) returns (docs: seq<Document>)
      requires Valid() && topic in vals && topic in TopicsOf(customerTopics, customer)
      modifies this
      ensures Valid()
      ensures GetsExactly(old(Model()), customer, topic, count, docs, Model())
    {
      ghost var c := Model();
      docs := [];
      var left := count;
      var todo := vals[topic].Keys;
      CollectingStarts(c, customer, topic, count);
      while todo != {}
        invariant Collecting(c, customer, topic, count, docs, todo, Model())
        invariant left == count - |docs|
        decreases todo
      {
        var id :| id in todo;
        if left <= 0 {
          break;
        }
        ghost var c1 := Model();
        CollectingVisits(c, customer, topic, count, docs, todo, c1, id);
        if id !in ReadBy(customerReaded, customer, topic) {
          left := left - 1;
          var doc := vals[topic][id];
          Forget(customer, topic, id);
          CollectingMore(c, customer, topic, count, docs, todo, c1, doc, Model());
          docs := docs + [doc];
        }
        todo := todo - {id};
      }
      CollectingEnds(c, customer, topic, count, docs, todo, Model());
    }

    method Get(customer: string, topic: string, count: int) returns (r: Result<seq<Document>>)
      requires Valid()
      modifies this
      ensures Valid()
      ensures r.Ok? <==> topic in old(vals)
      ensures r.Ok? ==> GetsExactly(Subscribed(old(Model()), customer, topic), customer, topic, count, r.value, Model())
      ensures r.Err? ==> Model() == Subscribed(old(Model()), customer, topic)
      ensures customer in customerTopics && topic in customerTopics[customer]
      ensures r.Ok? ==>
                && DistinctIds(r.value) && (if count <= 0 then r.value == [] else |r.value| <= count)
                && (forall doc :: doc in r.value ==> Moved(old(Model()), customer, topic, doc, Model()))
                && (|r.value| < count ==>
                      forall id :: id in HeldIn(vals, topic) ==> id in ReadBy(old(customerReaded), customer, topic))
                && forall t :: t != topic ==> HeldIn(vals, t) == HeldIn(old(vals), t)
    {
      if topic !in TopicsOf(customerTopics, customer) {
        var _ := Subscribe(customer, topic);
      } else {
        SubscribedAlready(Model(), customer, topic);
      }
      if topic !in vals {
        return Err("no such topic");
      }
      ghost var c := Model();
      var docs := GetLocked(customer, topic, count);
      GetsInWords(c, customer, topic, count, docs, Model());
      r := Ok(docs);
    }

    method Close()
      modifies this
      ensures Valid() && Model() == old(Model()).(vals := map[])
    {
      vals := map[];
    }
  }

  lemma Subset(a: set<string>, b: set<string>)
    requires a <= b
    ensures |a| <= |b| && (|a| == |b| ==> a == b)
  {
    assert b == a + (b - a);
  }

  // ---------------------------------------------------------------- whole runs

  /** A call and, for `Get`, what it returned. */
  datatype Call =
    | Put(topic: string, doc: Document)
    | Get(customer: string, topic: string, count: int, docs: seq<Document>)
    | GetOfNoTopic(customer: string, topic: string)
    | Subscribe(customer: string, topic: string)
    | Close

  ghost predicate Next(c: Cache, call: Call, c': Cache) {
    match call
    case Put(topic, doc) => c' == c.(vals := c.vals[topic := HeldIn(c.vals, topic)[doc.id := doc]])
    case Get(customer, topic, count, docs) =>
      GetsExactly(Subscribed(c, customer, topic), customer, topic, count, docs, c')
    case GetOfNoTopic(customer, topic) => topic !in c.vals && c' == Subscribed(c, customer, topic)
    case Subscribe(customer, topic) => c' == Subscribed(c, customer, topic)
    case Close => c' == c.(vals := map[])
  }

  ghost predicate IsRun(states: seq<Cache>, calls: seq<Call>) {
    && |states| == |calls| + 1
    && forall i :: 0 <= i < |calls| ==> Next(states[i], calls[i], states[i+1])
  }

  /** What became of a document that was put. */
  datatype Fate = Held | Delivered(customer: string) | Dropped | Overwritten

  datatype Entry = Entry(topic: string, doc: Document, fate: Fate)

  function FateAfter(e: Entry, call: Call): Fate {
    if !e.fate.Held? then e.fate
    else match call
      case Put(topic, doc) => if e.topic == topic && e.doc.id == doc.id then Overwritten else Held
      case Get(customer, topic, _, docs) =>
        if e.topic == topic && e.doc.id in Ids(docs) then Delivered(customer) else Held
      case Close => Dropped
      case _ => Held
  }

  /** One entry for each `Put`, in order; only an entry still held changes. */
  function Record(ledger: seq<Entry>, call: Call): seq<Entry> {
    var settled := seq(|ledger|, i requires 0 <= i < |ledger| => ledger[i].(fate := FateAfter(ledger[i], call)));
    if call.Put? then settled + [Entry(call.topic, call.doc, Held)] else settled
  }

  function LedgerOf(calls: seq<Call>): seq<Entry> {
    if calls == [] then [] else Record(LedgerOf(calls[..|calls|-1]), calls[|calls|-1])
  }

  ghost predicate HeldEntry(ledger: seq<Entry>, i: int, topic: string, id: string) {
    0 <= i < |ledger| && ledger[i].fate.Held? && ledger[i].topic == topic && ledger[i].doc.id == id
  }

  /** The documents in the cache are those of the held entries; what was delivered is recorded as read. */
  ghost predicate LedgerInv(c: Cache, ledger: seq<Entry>) {
    && (forall i, topic, id :: HeldEntry(ledger, i, topic, id) ==>
          id in HeldIn(c.vals, topic) && HeldIn(c.vals, topic)[id] == ledger[i].doc)
    && (forall topic, id :: id in HeldIn(c.vals, topic) ==> exists i :: HeldEntry(ledger, i, topic, id))
    && (forall i, j, topic, id :: HeldEntry(ledger, i, topic, id) && HeldEntry(ledger, j, topic, id) ==> i == j)
    && (forall i :: 0 <= i < |ledger| && ledger[i].fate.Delivered? ==>
          ledger[i].doc.id in ReadBy(c.read, ledger[i].fate.customer, ledger[i].topic))
  }

  lemma HeldAfterGet(ledger: seq<Entry>, call: Call, i: int, topic: string, id: string)
    requires call.Get?
    ensures HeldEntry(Record(ledger, call), i, topic, id)
       <==> HeldEntry(ledger, i, topic, id) && !(topic == call.topic && id in Ids(call.docs))
  {
  }

  lemma HeldInAfterHands(c: Cache, customer: string, handed: string, ids: set<string>, c': Cache, topic: string)
    requires Hands(c, customer, handed, ids, c')
    ensures HeldIn(c'.vals, topic) == HeldIn(c.vals, topic) - if topic == handed then ids else {}
  {
  }

  lemma HeldInAfterGet(c: Cache, call: Call, c': Cache, topic: string)
    requires call.Get? && Next(c, call, c')
    ensures HeldIn(c'.vals, topic) == HeldIn(c.vals, topic) - if topic == call.topic then Ids(call.docs) else {}
  {
    var asked := Subscribed(c, call.customer, call.topic);
    assert asked.vals == c.vals && Hands(asked, call.customer, call.topic, Ids(call.docs), c');
    HeldInAfterHands(asked, call.customer, call.topic, Ids(call.docs), c', topic);
  }

  lemma ReadAfterGet(c: Cache, call: Call, c': Cache, ledger: seq<Entry>, i: nat)
    requires call.Get? && Next(c, call, c') && LedgerInv(c, ledger)
    requires i < |ledger| && Record(ledger, call)[i].fate.Delivered?
    ensures var e := Record(ledger, call)[i]; e.doc.id in ReadBy(c'.read, e.fate.customer, e.topic)
  {
    var e := Record(ledger, call)[i];
    assert ReadBy(c'.read, e.fate.customer, e.topic) >= ReadBy(c.read, e.fate.customer, e.topic);
    assert ReadBy(c'.read, call.customer, call.topic) >= Ids(call.docs);
  }

  lemma GetKeepsLedger(c: Cache, call: Call, c': Cache, ledger: seq<Entry>)
    requires call.Get? && Next(c, call, c') && LedgerInv(c, ledger)
    ensures LedgerInv(c', Record(ledger, call))
  {
    var ledger' := Record(ledger, call);
    forall i, t, id | HeldEntry(ledger', i, t, id)
      ensures id in HeldIn(c'.vals, t) && HeldIn(c'.vals, t)[id] == ledger'[i].doc
    {
      HeldAfterGet(ledger, call, i, t, id);
      HeldInAfterGet(c, call, c', t);
    }
    forall t, id | id in HeldIn(c'.vals, t) ensures exists i :: HeldEntry(ledger', i, t, id) {
      HeldInAfterGet(c, call, c', t);
      var i :| HeldEntry(ledger, i, t, id);
      HeldAfterGet(ledger, call, i, t, id);
    }
    forall i, j, t, id | HeldEntry(ledger', i, t, id) && HeldEntry(ledger', j, t, id) ensures i == j {
      HeldAfterGet(ledger, call, i, t, id);
      HeldAfterGet(ledger, call, j, t, id);
    }
    forall i | 0 <= i < |ledger'| && ledger'[i].fate.Delivered?
      ensures ledger'[i].doc.id in ReadBy(c'.read, ledger'[i].fate.customer, ledger'[i].topic)
    {
      ReadAfterGet(c, call, c', ledger, i);
    }
  }

  lemma PutKeepsLedger(c: Cache, call: Call, c': Cache, ledger: seq<Entry>)
    requires call.Put? && Next(c, call, c') && LedgerInv(c, ledger)
    ensures LedgerInv(c', Record(ledger, call))
  {
    var ledger', n := Record(ledger, call), |ledger|;
    assert forall i, t, id :: HeldEntry(ledger', i, t, id) <==>
      (if t == call.topic && id == call.doc.id then i == n else HeldEntry(ledger, i, t, id));
    forall t, id | id in HeldIn(c'.vals, t) ensures exists i :: HeldEntry(ledger', i, t, id) {
      if t == call.topic && id == call.doc.id {
        assert HeldEntry(ledger', n, t, id);
      } else {
        assert id in HeldIn(c.vals, t);
        var i :| HeldEntry(ledger, i, t, id);
        assert HeldEntry(ledger', i, t, id);
      }
    }
  }

  lemma CallKeepsLedger(c: Cache, call: Call, c': Cache, ledger: seq<Entry>)
    requires Next(c, call, c') && LedgerInv(c, ledger)
    ensures LedgerInv(c', Record(ledger, call))
  {
    if call.Get? {
      GetKeepsLedger(c, call, c', ledger);
    } else if call.Put? {
      PutKeepsLedger(c, call, c', ledger);
    } else if call.Close? {
      assert forall i, t, id :: !HeldEntry(Record(ledger, call), i, t, id);
    } else {
      assert Record(ledger, call) == ledger;
    }
  }

  /** In every run each document put is still held, was delivered to one customer, was dropped by `Close`,
      or was overwritten by a `Put` of the same id; those held are exactly those in the cache. */
  lemma {:induction false} Ledger(states: seq<Cache>, calls: seq<Call>)
    requires IsRun(states, calls) && states[0] == EMPTY
    ensures LedgerInv(states[|calls|], LedgerOf(calls))
  {
    if calls != [] {
      var n := |calls| - 1;
      Ledger(states[..n+1], calls[..n]);
      CallKeepsLedger(states[n], calls[n], states[n+1], LedgerOf(calls[..n]));
    }
  }

  /** A `Get` delivers what it returns: each document is that of one held entry, which becomes Delivered to
      the caller, and no other entry does. */
  lemma GetSettlesItsEntries(c: Cache, call: Call, c': Cache, ledger: seq<Entry>, doc: Document)
    requires call.Get? && Next(c, call, c') && LedgerInv(c, ledger)
    ensures doc in call.docs <==>
            exists i :: HeldEntry(ledger, i, call.topic, doc.id) && ledger[i].doc == doc
                     && Record(ledger, call)[i].fate == Delivered(call.customer)
  {
    if doc in call.docs {
      assert doc.id in HeldIn(c.vals, call.topic);
      var i :| HeldEntry(ledger, i, call.topic, doc.id);
      assert ledger[i].doc == doc && Record(ledger, call)[i].fate == Delivered(call.customer);
    }
    forall i | HeldEntry(ledger, i, call.topic, doc.id) && ledger[i].doc == doc
            && Record(ledger, call)[i].fate == Delivered(call.customer)
      ensures doc in call.docs
    {
      var d :| d in call.docs && d.id == doc.id;
    }
  }

  lemma {:induction false} ReadOnlyGrows(states: seq<Cache>, calls: seq<Call>, i: nat, j: nat, customer: string,
                                         topic: string)
    requires IsRun(states, calls) && i <= j <= |calls|
    ensures ReadBy(states[i].read, customer, topic) <= ReadBy(states[j].read, customer, topic)
  {
    if i < j {
      ReadOnlyGrows(states, calls, i, j - 1, customer, topic);
      assert Next(states[j-1], calls[j-1], states[j]);
    }
  }

  /** No customer is given the same id of a topic twice, even if the id is put again, even after `Close`. */
  lemma NoCustomerReadsTwice(states: seq<Cache>, calls: seq<Call>, i: nat, j: nat)
    requires IsRun(states, calls) && i < j < |calls| && calls[i].Get? && calls[j].Get?
    requires calls[i].customer == calls[j].customer && calls[i].topic == calls[j].topic
    ensures Ids(calls[i].docs) !! Ids(calls[j].docs)
  {
    var customer, topic := calls[i].customer, calls[i].topic;
    assert Next(states[i], calls[i], states[i+1]) && Next(states[j], calls[j], states[j+1]);
    ReadOnlyGrows(states, calls, i + 1, j, customer, topic);
    assert Ids(calls[i].docs) <= ReadBy(states[i+1].read, customer, topic);
    assert Ids(calls[j].docs) !! ReadBy(states[j].read, customer, topic);
  }

  lemma {:induction false} GoneStaysGone(states: seq<Cache>, calls: seq<Call>, i: nat, j: nat, topic: string,
                                         id: string)
    requires IsRun(states, calls) && i <= j <= |calls| && id !in HeldIn(states[i].vals, topic)
    requires forall k :: i <= k < j ==> !(calls[k].Put? && calls[k].topic == topic && calls[k].doc.id == id)
    ensures id !in HeldIn(states[j].vals, topic)
  {
    if i < j {
      GoneStaysGone(states, calls, i, j - 1, topic, id);
      assert Next(states[j-1], calls[j-1], states[j]);
    }
  }

  /** Unless an id is put again, only one customer is ever given it. */
  lemma DeliveredOnce(states: seq<Cache>, calls: seq<Call>, i: nat, j: nat, id: string)
    requires IsRun(states, calls) && i < j < |calls| && calls[i].Get? && calls[j].Get?
    requires calls[i].topic == calls[j].topic && id in Ids(calls[i].docs)
    requires forall k :: i < k < j ==> !(calls[k].Put? && calls[k].topic == calls[i].topic && calls[k].doc.id == id)
    ensures id !in Ids(calls[j].docs)
  {
    assert Next(states[i], calls[i], states[i+1]) && Next(states[j], calls[j], states[j+1]);
    GoneStaysGone(states, calls, i + 1, j, calls[i].topic, id);
  }

  lemma FirstMark(customer: string, topic: string, id: string)
    ensures Marks(map[], customer, topic, {id}, map[customer := map[topic := {id}]])
  {
  }

  lemma IdsOfOne(doc: Document)
    ensures Ids([doc]) == {doc.id}
  {
    assert doc in [doc];
  }

  lemma HandsTheOne(c: Cache, customer: string, topic: string, doc: Document, c': Cache)
    requires c.vals == map[topic := map[doc.id := doc]] && c.read == map[]
    requires c' == c.(vals := map[topic := map[]], read := map[customer := map[topic := {doc.id}]])
    ensures Hands(c, customer, topic, Ids([doc]), c')
  {
    IdsOfOne(doc);
    FirstMark(customer, topic, doc.id);
    assert map[doc.id := doc] - {doc.id} == map[];
  }

  lemma OneIsUnread(c: Cache, customer: string, topic: string, doc: Document)
    requires c.vals == map[topic := map[doc.id := doc]] && c.read == map[]
    ensures Unread(c, customer, topic) == {doc.id} && UnreadDocs(c, customer, topic, [doc])
  {
  }

  lemma GetsTheOne(c: Cache, customer: string, topic: string, doc: Document, count: int, c': Cache)
    requires c.vals == map[topic := map[doc.id := doc]] && c.read == map[] && count >= 1
    requires c' == c.(vals := map[topic := map[]], read := map[customer := map[topic := {doc.id}]])
    ensures GetsExactly(c, customer, topic, count, [doc], c')
  {
    OneIsUnread(c, customer, topic, doc);
    HandsTheOne(c, customer, topic, doc, c');
  }

  /** A document comes that two customers have subscribed to. */
  lemma PutForTwo(topic: string, doc: Document, customer: string, other: string)
    returns (states: seq<Cache>, calls: seq<Call>)
    ensures IsRun(states, calls) && states[0] == EMPTY
    ensures calls == [Subscribe(customer, topic), Subscribe(other, topic), Put(topic, doc)]
    ensures states[3].vals == map[topic := map[doc.id := doc]] && states[3].read == map[]
  {
    calls := [Subscribe(customer, topic), Subscribe(other, topic), Put(topic, doc)];
    var c1 := Subscribed(EMPTY, customer, topic);
    var c2 := Subscribed(c1, other, topic);
    states := [EMPTY, c1, c2, c2.(vals := c2.vals[topic := HeldIn(c2.vals, topic)[doc.id := doc]])];
  }

  lemma OneMoreCall(states: seq<Cache>, calls: seq<Call>, call: Call, c: Cache)
    requires IsRun(states, calls) && Next(states[|calls|], call, c)
    ensures IsRun(states + [c], calls + [call])
  {
    forall i | 0 <= i < |calls + [call]| ensures Next((states + [c])[i], (calls + [call])[i], (states + [c])[i+1]) {
      if i < |calls| { assert Next(states[i], calls[i], states[i+1]); }
    }
  }

  /** One of them gets it. */
  lemma GotByOne(topic: string, doc: Document, customer: string, other: string, count: int)
    returns (states: seq<Cache>, calls: seq<Call>)
    requires count >= 1
    ensures IsRun(states, calls) && states[0] == EMPTY
    ensures calls == [Subscribe(customer, topic), Subscribe(other, topic), Put(topic, doc),
                      Get(customer, topic, count, [doc])]
    ensures states[4].vals == map[topic := map[]]
  {
    var before, puts := PutForTwo(topic, doc, customer, other);
    var asked := Subscribed(before[3], customer, topic);
    var c4 := asked.(vals := map[topic := map[]], read := map[customer := map[topic := {doc.id}]]);
    GetsTheOne(asked, customer, topic, doc, count, c4);
    OneMoreCall(before, puts, Get(customer, topic, count, [doc]), c4);
    states, calls := before + [c4], puts + [Get(customer, topic, count, [doc])];
  }

  lemma NothingUnread(c: Cache, customer: string, topic: string, count: int)
    requires c.vals == map[topic := map[]]
    ensures forall n, docs, c' :: GetsExactly(c, customer, topic, n, docs, c') ==> docs == []
    ensures GetsExactly(c, customer, topic, count, [], c)
  {
    assert Unread(c, customer, topic) == {} && Ids([]) == {};
    var ids: set<string> := {};
    assert c.vals[topic] - ids == c.vals[topic];
    assert c.vals[topic := c.vals[topic]] == c.vals;
  }

  /** Then the other gets nothing, in whatever order it iterates, although it had subscribed before. */
  lemma SecondCustomerGetsNothing(topic: string, doc: Document, customer: string, other: string, count: int)
    returns (states: seq<Cache>, calls: seq<Call>)
    requires count >= 1
    ensures IsRun(states, calls) && states[0] == EMPTY
    ensures calls == [Subscribe(customer, topic), Subscribe(other, topic), Put(topic, doc),
                      Get(customer, topic, count, [doc])]
    ensures forall n, docs, c' :: Next(states[4], Get(other, topic, n, docs), c') ==> docs == []
    ensures exists c' :: Next(states[4], Get(other, topic, count, []), c')
  {
    states, calls := GotByOne(topic, doc, customer, other, count);
    var asked := Subscribed(states[4], other, topic);
    NothingUnread(asked, other, topic, count);
    assert Next(states[4], Get(other, topic, count, []), asked);
  }

  // ---------------------------------------------------------------- draining a topic

  /** How many documents of the topic the customer asks for in all. */
  function Asked(calls: seq<Call>, customer: string, topic: string): nat {
    if calls == [] then 0
    else Asked(calls[..|calls|-1], customer, topic) + AskedIn(calls[|calls|-1], customer, topic)
  }

  function AskedIn(call: Call, customer: string, topic: string): nat {
    if call.Get? && call.customer == customer && call.topic == topic then AtLeastZero(call.count) else 0
  }

  lemma UnreadAfterGet(c: Cache, call: Call, c': Cache, customer: string, topic: string)
    requires call.Get? && Next(c, call, c')
    ensures Unread(c', customer, topic)
         == Unread(c, customer, topic) - if call.topic == topic then Ids(call.docs) else {}
  {
  }

  lemma CallDrains(c: Cache, call: Call, c': Cache, customer: string, topic: string)
    requires Next(c, call, c') && !(call.Put? && call.topic == topic)
    ensures Unread(c', customer, topic) <= Unread(c, customer, topic)
    ensures Unread(c', customer, topic) == {}
         || |Unread(c', customer, topic)| + AskedIn(call, customer, topic) <= |Unread(c, customer, topic)|
  {
    if call.Get? {
      UnreadAfterGet(c, call, c', customer, topic);
      if call.customer == customer && call.topic == topic {
        Remaining(Unread(c, customer, topic), call.docs);
      }
    }
    Subset(Unread(c', customer, topic), Unread(c, customer, topic));
  }

  lemma Remaining(before: set<string>, docs: seq<Document>)
    requires DistinctIds(docs) && forall doc :: doc in docs ==> doc.id in before
    ensures |before - Ids(docs)| == |before| - |docs|
    ensures |docs| == |before| ==> before - Ids(docs) == {}
  {
    IdsCount(docs);
    assert before == Ids(docs) + (before - Ids(docs));
  }

  lemma LastIsNew(docs: seq<Document>)
    requires DistinctIds(docs) && docs != []
    ensures docs[|docs|-1].id !in Ids(docs[..|docs|-1])
  {
  }

  lemma {:induction false} IdsCount(docs: seq<Document>)
    requires DistinctIds(docs)
    ensures |Ids(docs)| == |docs|
  {
    if docs == [] {
      assert Ids(docs) == {};
    } else {
      var init, last := docs[..|docs|-1], docs[|docs|-1];
      IdsCount(init);
      LastIsNew(docs);
      IdsOfMore(init, last);
      assert Ids(docs) == Ids(init) + {last.id} by { assert docs == init + [last]; }
    }
  }

  lemma CallOfRunDrains(states: seq<Cache>, calls: seq<Call>, n: nat, customer: string, topic: string)
    requires IsRun(states, calls) && n < |calls| && !(calls[n].Put? && calls[n].topic == topic)
    ensures var unread, before := Unread(states[n+1], customer, topic), Unread(states[n], customer, topic);
            unread <= before && (unread == {} || |unread| + AskedIn(calls[n], customer, topic) <= |before|)
    ensures Asked(calls[..n+1], customer, topic)
         == Asked(calls[..n], customer, topic) + AskedIn(calls[n], customer, topic)
  {
    CallDrains(states[n], calls[n], states[n+1], customer, topic);
    assert calls[..n+1][..n] == calls[..n];
  }

  /** Without new documents of a topic, a customer that asks for k of n unread ones, in however many calls and
      whatever else is called in between, leaves at most n - k of them: none once k >= n. */
  lemma {:induction false} TopicDrains(states: seq<Cache>, calls: seq<Call>, n: nat, customer: string, topic: string)
    requires IsRun(states, calls) && n <= |calls|
    requires forall k :: 0 <= k < n ==> !(calls[k].Put? && calls[k].topic == topic)
    ensures var unread, before := Unread(states[n], customer, topic), Unread(states[0], customer, topic);
            unread == {} || |unread| + Asked(calls[..n], customer, topic) <= |before|
  {
    if n > 0 {
      TopicDrains(states, calls, n - 1, customer, topic);
      CallOfRunDrains(states, calls, n - 1, customer, topic);
    }
  }
}
