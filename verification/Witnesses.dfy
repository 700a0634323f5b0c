/** Runs of the whole system that show what can happen: for any document, topic and transaction. */
module Witnesses {
  import opened Wrappers
  import opened Documents
  import opened Cassandra
  import opened Blockchain
  import opened System
  import opened Lexicographic
  import opened Merkle
  import opened Proofs
  import opened Completions
  import opened EndToEnd
  import opened Forsaken
  import K = Kafka
  import P = Persister
  import R = Registrar

  /** A configuration with room for one document, a worker, and a getter for the topic. */
  predicate HasRoom(c: Config, topic: string) {
    && topic in c.Limits() && c.Limits()[topic] >= 1
    && c.persist.chanCap >= 1 && c.persist.workers >= 1 && c.persist.topics != [] && c.persist.topics[0] == topic
  }

  lemma ReachableOn(c: Config, s: State, l: Label)
    requires Reachable(c, s) && Enabled(c, s, l)
    ensures Reachable(c, System.Apply(c, s, l))
  {
    var states, labels :| IsRun(c, states, labels) && states[|labels|] == s;
    var states', labels' := states + [System.Apply(c, s, l)], labels + [l];
    forall i | 0 <= i < |labels'|
      ensures Enabled(c, states'[i], labels'[i]) && states'[i+1] == System.Apply(c, states'[i], labels'[i])
    {
      if i < |labels| {
        assert Enabled(c, states[i], labels[i]) && states[i+1] == System.Apply(c, states[i], labels[i]);
      }
    }
    assert IsRun(c, states', labels');
    assert states'[|labels'|] == System.Apply(c, s, l);
  }

  // ---------------------------------------------------------------- a document reaches both halves

  const NEW_LANE := K.Lane(0, 0, [], 0, [])

  /** A consumer that has subscribed and read nothing. */
  predicate Waits(s: State, name: string, topic: string) {
    K.HasLane(s.cache, name, topic) && s.cache.consumers[name].hand.Idle? && K.LaneOf(s.cache, name, topic) == NEW_LANE
  }

  /** The document is what this consumer's `Get` takes next. */
  predicate Offers(s: State, name: string, topic: string, doc: Document) {
    CanTake(s, name, topic) && Offered(s, name, topic) == doc
  }

  /** The registrar has been sent the document, and nothing else has happened but in the cache. */
  ghost predicate Starts(c: Config, s: State, topic: string, doc: Document) {
    && Reachable(c, s) && s == INIT.(cache := s.cache) && topic in c.Limits() && c.Limits()[topic] >= 1
    && Offers(s, REGISTRAR, topic, doc)
  }

  /** The cache is the same for the persister. */
  predicate SameForPersister(a: K.State, b: K.State) {
    && a.logs == b.logs && a.places == b.places
    && (PERSISTER in a.consumers ==> PERSISTER in b.consumers && b.consumers[PERSISTER] == a.consumers[PERSISTER])
  }

  lemma RegistrarSubscribed(c: Config, topic: string) returns (s: State)
    requires topic in c.Limits()
    ensures Reachable(c, s) && s == INIT.(cache := s.cache) && s.cache.logs == map[] && s.cache.places == map[]
    ensures s.cache.consumers.Keys == {REGISTRAR} && Waits(s, REGISTRAR, topic)
  {
    var states, labels: seq<Label> := [INIT], [];
    assert IsRun(c, states, labels) && states[|labels|] == INIT;
    var subscribe := Cache(K.Subscribe(REGISTRAR));
    s := System.Apply(c, INIT, subscribe);
    ReachableOn(c, INIT, subscribe);
  }

  lemma BothSubscribed(c: Config, topic: string) returns (s: State)
    requires topic in c.Limits()
    ensures Reachable(c, s) && s == INIT.(cache := s.cache) && s.cache.logs == map[] && s.cache.places == map[]
    ensures Waits(s, PERSISTER, topic) && Waits(s, REGISTRAR, topic)
  {
    assert |PERSISTER| != |REGISTRAR|;
    var s1 := RegistrarSubscribed(c, topic);
    var subscribe := Cache(K.Subscribe(PERSISTER));
    s := System.Apply(c, s1, subscribe);
    ReachableOn(c, s1, subscribe);
  }

  lemma DocumentPut(c: Config, topic: string, doc: Document) returns (s: State)
    requires topic in c.Limits() && K.WellFormed(doc)
    ensures Reachable(c, s) && s == INIT.(cache := s.cache) && K.Log(s.cache.logs, topic) == [doc]
    ensures Waits(s, PERSISTER, topic) && Waits(s, REGISTRAR, topic)
  {
    var s0 := BothSubscribed(c, topic);
    var put := Cache(K.Put(topic, doc));
    s := System.Apply(c, s0, put);
    ReachableOn(c, s0, put);
    assert K.Log(s.cache.logs, topic) == [] + [doc];
  }

  /** A consumer reads the document and sends it on its channel. */
  lemma DocumentRead(c: Config, s: State, name: string, topic: string, doc: Document)
    returns (s': State)
    requires Reachable(c, s) && topic in c.Limits() && c.Limits()[topic] >= 1
    requires Waits(s, name, topic) && K.Log(s.cache.logs, topic) == [doc]
    ensures Reachable(c, s') && s' == s.(cache := s'.cache)
    ensures s'.cache.logs == s.cache.logs && s'.cache.places == s.cache.places
    ensures Offers(s', name, topic, doc)
    ensures forall other :: other != name && other in s.cache.consumers ==>
              other in s'.cache.consumers && s'.cache.consumers[other] == s.cache.consumers[other]
  {
    var l1, l2 := Cache(K.Receive(name, topic)), Cache(K.Enqueue(name));
    var s1 := System.Apply(c, s, l1);
    ReachableOn(c, s, l1);
    assert s1.cache.consumers[name].hand == K.Holding(topic, doc);
    s' := System.Apply(c, s1, l2);
    ReachableOn(c, s1, l2);
    assert K.LaneOf(s'.cache, name, topic).chan == [] + [doc];
  }

  lemma DocumentOffered(c: Config, topic: string, doc: Document) returns (s: State)
    requires topic in c.Limits() && c.Limits()[topic] >= 1 && K.WellFormed(doc)
    ensures Starts(c, s, topic, doc) && Offers(s, PERSISTER, topic, doc)
  {
    assert |PERSISTER| != |REGISTRAR|;
    var s0 := DocumentPut(c, topic, doc);
    var s1 := DocumentRead(c, s0, REGISTRAR, topic, doc);
    s := DocumentRead(c, s1, PERSISTER, topic, doc);
  }

  /** The document is put before the persister has subscribed. */
  lemma DocumentSkipped(c: Config, topic: string, doc: Document) returns (s: State)
    requires topic in c.Limits() && c.Limits()[topic] >= 1 && K.WellFormed(doc)
    ensures Starts(c, s, topic, doc) && K.Skipped(s.cache, PERSISTER, doc)
  {
    assert |PERSISTER| != |REGISTRAR|;
    var s0 := RegistrarSubscribed(c, topic);
    var l1, l2 := Cache(K.Put(topic, doc)), Cache(K.Subscribe(PERSISTER));
    var s1 := System.Apply(c, s0, l1);
    ReachableOn(c, s0, l1);
    assert K.Log(s1.cache.logs, topic) == [] + [doc];
    var s2 := System.Apply(c, s1, l2);
    ReachableOn(c, s1, l2);
    s := DocumentRead(c, s2, REGISTRAR, topic, doc);
  }

  /** The registrar takes the document into a batch of its own. */
  lemma BatchCollected(c: Config, s0: State, topic: string, doc: Document) returns (s: State)
    requires Starts(c, s0, topic, doc)
    ensures Reachable(c, s) && s == INIT.(cache := s.cache, registrar := s.registrar)
    ensures SameForPersister(s0.cache, s.cache)
    ensures s.registrar == R.INIT.(batches := [R.Batch(topic, [doc], R.Collecting)])
  {
    var l1, l2 := Registering(R.Start(topic)), RegistrarTake(0);
    var s1 := System.Apply(c, s0, l1);
    ReachableOn(c, s0, l1);
    assert s1.registrar.batches == [R.Batch(topic, [], R.Collecting)];
    assert Offers(s1, REGISTRAR, topic, doc);
    s := System.Apply(c, s1, l2);
    ReachableOn(c, s1, l2);
    assert s.registrar.batches[0].docs == [] + [doc] == [doc];
    assert s.registrar.batches == [R.Batch(topic, [doc], R.Collecting)];
    assert |PERSISTER| != |REGISTRAR|;
  }

  /** The chain accepts it. */
  lemma BatchAccepted(c: Config, s0: State, topic: string, doc: Document, txid: string) returns (s: State)
    requires Starts(c, s0, topic, doc)
    ensures Reachable(c, s) && s == INIT.(cache := s.cache, registrar := s.registrar)
    ensures SameForPersister(s0.cache, s.cache)
    ensures s.registrar.batches == [R.Batch(topic, [doc], R.Submitted(txid))]
    ensures s.registrar.completions == [] && s.registrar.items == map[] && s.registrar.applied == map[]
    ensures s.registrar.accepted == map[txid := 0] && s.registrar.clock == 0
  {
    var s1 := BatchCollected(c, s0, topic, doc);
    var register := Registering(R.Register(0, R.Accepted(txid)));
    s := System.Apply(c, s1, register);
    ReachableOn(c, s1, register);
    assert s.registrar.batches[0] == R.Batch(topic, [doc], R.Submitted(txid)) && |s.registrar.batches| == 1;
  }

  /** The document is the only batch there is, and waits for its completion. */
  predicate OneBatch(r: R.State, topic: string, doc: Document, txid: string) {
    r.accepted == map[txid := 0] && r.batches == [R.Batch(topic, [doc], R.Pending(txid))]
  }

  /** And stored. */
  lemma BatchStored(c: Config, s: State, topic: string, doc: Document, txid: string) returns (s': State)
    requires Reachable(c, s) && s.registrar.batches == [R.Batch(topic, [doc], R.Submitted(txid))]
    requires s.registrar.items == map[] && s.registrar.accepted == map[txid := 0]
    ensures Enabled(c, s, Registering(R.Store(0))) && s' == System.Apply(c, s, Registering(R.Store(0)))
    ensures Reachable(c, s') && OneBatch(s'.registrar, topic, doc, txid) && s'.registrar.items == map[txid := [doc]]
    ensures s' == s.(registrar := s.registrar.(batches := s'.registrar.batches, items := s'.registrar.items))
  {
    var store := Registering(R.Store(0));
    s' := System.Apply(c, s, store);
    ReachableOn(c, s, store);
    assert s'.registrar.batches[0] == R.Batch(topic, [doc], R.Pending(txid)) && |s'.registrar.batches| == 1;
    assert s'.registrar.items == map[][txid := [doc]];
  }

  // ---------------------------------------------------------------- an early event

  /** An event comes when its batch is accepted and not yet stored. It changes nothing, the batch is stored, and waits:
      however the run goes on, without another event for the transaction there is no completion of it. */
  lemma EventOvertakesStore(c: Config, topic: string, doc: Document, txid: string)
    returns (s: State, s': State)
    requires topic in c.Limits() && c.Limits()[topic] >= 1 && K.WellFormed(doc)
    ensures Reachable(c, s) && s.registrar.batches == [R.Batch(topic, [doc], R.Submitted(txid))]
    ensures System.Apply(c, s, Registering(R.Begin(txid))) == s
    ensures Enabled(c, s, Registering(R.Store(0))) && s' == System.Apply(c, s, Registering(R.Store(0)))
    ensures Reachable(c, s') && s'.registrar.batches == [R.Batch(topic, [doc], R.Pending(txid))]
    ensures s'.registrar.items == map[txid := [doc]]
    ensures forall states: seq<State>, labels: seq<Label> ::
              Steps(c, states, labels) && states[0] == s' && Registering(R.Begin(txid)) !in labels ==>
                !HasCompletion(states[|labels|].registrar, txid)
  {
    var s0 := DocumentOffered(c, topic, doc);
    s := BatchAccepted(c, s0, topic, doc, txid);
    s' := BatchStored(c, s, topic, doc, txid);
    forall states: seq<State>, labels: seq<Label> |
      Steps(c, states, labels) && states[0] == s' && Registering(R.Begin(txid)) !in labels
      ensures !HasCompletion(states[|labels|].registrar, txid)
    {
      CompletedFrom(c, states, labels, |labels|, txid);
    }
  }

  // ---------------------------------------------------------------- completions

  function Begun(c: Config, doc: Document, txid: string): R.Completion
    requires R.DigestFor(c.chain, [doc], txid).Some?
  {
    R.Completion(txid, [doc], R.DigestFor(c.chain, [doc], txid).value, R.BeforeStamp)
  }

  /** An event for its transaction finds the batch. */
  lemma OneCompletion(c: Config, s0: State, topic: string, doc: Document, txid: string) returns (s: State)
    requires Starts(c, s0, topic, doc) && R.DigestFor(c.chain, [doc], txid).Some?
    ensures Reachable(c, s) && s == INIT.(cache := s.cache, registrar := s.registrar)
    ensures SameForPersister(s0.cache, s.cache) && OneBatch(s.registrar, topic, doc, txid)
    ensures s.registrar.completions == [Begun(c, doc, txid)] && s.registrar.items == map[txid := [doc]]
    ensures s.registrar.applied == map[] && s.registrar.clock == 0
  {
    var s1 := BatchAccepted(c, s0, topic, doc, txid);
    var s2 := BatchStored(c, s1, topic, doc, txid);
    var begin := Registering(R.Begin(txid));
    s := System.Apply(c, s2, begin);
    ReachableOn(c, s2, begin);
    assert s.registrar.completions == [] + [Begun(c, doc, txid)];
  }

  /** Two events find it before either has forgotten it. */
  lemma TwoCompletions(c: Config, topic: string, doc: Document, txid: string) returns (s: State)
    requires topic in c.Limits() && c.Limits()[topic] >= 1 && K.WellFormed(doc)
    requires R.DigestFor(c.chain, [doc], txid).Some?
    ensures Reachable(c, s) && s.rows == map[] && s.registrar.clock == 0
    ensures s.registrar.completions == [Begun(c, doc, txid), Begun(c, doc, txid)]
  {
    var s0 := DocumentOffered(c, topic, doc);
    var s1 := OneCompletion(c, s0, topic, doc, txid);
    var begin := Registering(R.Begin(txid));
    s := System.Apply(c, s1, begin);
    ReachableOn(c, s1, begin);
    assert s.registrar.completions == [Begun(c, doc, txid)] + [Begun(c, doc, txid)];
  }

  /** Of two overlapping completions, 1 reads the clock, the clock moves on, and then 0 reads it. */
  lemma StampedInTurn(c: Config, topic: string, doc: Document, txid: string) returns (s: State)
    requires topic in c.Limits() && c.Limits()[topic] >= 1 && K.WellFormed(doc)
    requires R.DigestFor(c.chain, [doc], txid).Some?
    ensures Reachable(c, s) && s.rows == map[]
    ensures s.registrar.completions == [Begun(c, doc, txid).(stage := R.BeforeUpdate(1)),
                                        Begun(c, doc, txid).(stage := R.BeforeUpdate(0))]
  {
    var s0 := TwoCompletions(c, topic, doc, txid);
    var l1, l2, l3 := Registering(R.Stamp(1)), Registering(R.Tick(1)), Registering(R.Stamp(0));
    var s1 := System.Apply(c, s0, l1);
    ReachableOn(c, s0, l1);
    var s2 := System.Apply(c, s1, l2);
    ReachableOn(c, s1, l2);
    s := System.Apply(c, s2, l3);
    ReachableOn(c, s2, l3);
  }

  lemma UpdateOfOne(c: Config, s: State, j: nat, doc: Document)
    requires Enabled(c, s, UpdateDigest(j, true)) && s.registrar.completions[j].docs == [doc]
    ensures RowAt(System.Apply(c, s, UpdateDigest(j, true)).rows, doc.id).proof
         == Some(ProofOf(s.registrar.completions[j]))
  {
    ProofAfter(c, s, UpdateDigest(j, true), doc.id);
    assert doc in s.registrar.completions[j].docs;
  }

  /** The time of proof goes back, when the one that read the clock first is executed last. */
  lemma ProofTimeGoesBack(c: Config, topic: string, doc: Document, txid: string)
    returns (s: State, s': State)
    requires topic in c.Limits() && c.Limits()[topic] >= 1 && K.WellFormed(doc)
    requires R.DigestFor(c.chain, [doc], txid).Some?
    ensures Reachable(c, s) && Enabled(c, s, UpdateDigest(1, true)) && s' == System.Apply(c, s, UpdateDigest(1, true))
    ensures RowAt(s.rows, doc.id).proof == Some(Proof(R.DigestFor(c.chain, [doc], txid).value, 1, txid))
    ensures RowAt(s'.rows, doc.id).proof == Some(Proof(R.DigestFor(c.chain, [doc], txid).value, 0, txid))
  {
    var s0 := StampedInTurn(c, topic, doc, txid);
    s := System.Apply(c, s0, UpdateDigest(0, true));
    ReachableOn(c, s0, UpdateDigest(0, true));
    assert s.registrar.completions[1] == s0.registrar.completions[1];
    s' := System.Apply(c, s, UpdateDigest(1, true));
    UpdateOfOne(c, s0, 0, doc);
    UpdateOfOne(c, s, 1, doc);
  }

  // ---------------------------------------------------------------- a proven row that says it is not

  /** The row has its proof before its document is inserted. */
  lemma ProvenBeforeInsert(c: Config, s0: State, topic: string, doc: Document, txid: string) returns (s: State)
    requires Starts(c, s0, topic, doc) && R.DigestFor(c.chain, [doc], txid).Some?
    ensures Reachable(c, s) && s.persister == P.INIT && SameForPersister(s0.cache, s.cache)
    ensures RowAt(s.rows, doc.id).proof.Some? && OneBatch(s.registrar, topic, doc, txid)
  {
    var s1 := OneCompletion(c, s0, topic, doc, txid);
    var stamp := Registering(R.Stamp(0));
    var s2 := System.Apply(c, s1, stamp);
    ReachableOn(c, s1, stamp);
    s := System.Apply(c, s2, UpdateDigest(0, true));
    ReachableOn(c, s2, UpdateDigest(0, true));
    UpdateOfOne(c, s2, 0, doc);
  }

  /** A step of the persister alone. */
  lemma PersisterStep(c: Config, s: State, step: P.Label) returns (s': State)
    requires Reachable(c, s) && !step.Take? && !step.Finish? && P.Enabled(c.persist, s.persister, step)
    ensures Reachable(c, s') && s' == s.(persister := P.Apply(c.persist, s.persister, step))
  {
    s' := System.Apply(c, s, Persist(step));
    ReachableOn(c, s, Persist(step));
  }

  /** The persister starts a getter for the topic. */
  lemma GetterStarted(c: Config, s: State, topic: string) returns (s': State)
    requires Reachable(c, s) && HasRoom(c, topic) && s.persister == P.INIT
    ensures Reachable(c, s') && s' == s.(persister := s'.persister)
    ensures s'.persister == P.INIT.(getters := s'.persister.getters)
    ensures s'.persister.getters != [] && s'.persister.getters[0] == P.Getter(topic, true, [], [])
  {
    var s1 := PersisterStep(c, s, P.Tick);
    var s2 := PersisterStep(c, s1, P.AcquireTick);
    s' := PersisterStep(c, s2, P.Spawn);
    assert s'.persister.getters == [] + P.NewGetters(c.persist.topics);
  }

  /** The getter takes the document and sends it to the loop, which hands it over to a write. */
  lemma DocumentFetched(c: Config, s: State, topic: string, doc: Document) returns (s': State)
    requires Reachable(c, s) && HasRoom(c, topic) && Offers(s, PERSISTER, topic, doc)
    requires s.persister == P.INIT.(getters := s.persister.getters)
    requires s.persister.getters != [] && s.persister.getters[0] == P.Getter(topic, true, [], [])
    ensures Reachable(c, s') && s'.rows == s.rows && s'.registrar == s.registrar
    ensures s'.persister.chan == [doc] && s'.persister.queue == [] && s'.persister.running == []
    ensures s'.persister.loop.AtSelect? && s'.persister.spawners == 0
  {
    var take := PersisterTake(0);
    var s1 := System.Apply(c, s, take);
    ReachableOn(c, s, take);
    assert s1.persister.getters[0] == P.Getter(topic, true, [] + [doc], [] + [doc]);
    var s2 := PersisterStep(c, s1, P.Stop(0));
    s' := PersisterStep(c, s2, P.Send(0));
    assert s'.persister.chan == [] + [doc];
  }

  /** The loop queues the document; a queue that this does not fill is handed over by the timeout. */
  lemma DocumentQueued(c: Config, s: State, doc: Document) returns (s': State)
    requires Reachable(c, s) && s.persister.chan == [doc] && s.persister.queue == [] && s.persister.running == []
    requires s.persister.loop.AtSelect? && s.persister.spawners == 0
    ensures Reachable(c, s') && s'.rows == s.rows && s'.registrar == s.registrar && s'.persister.loop.Handing?
    ensures s'.persister.queue == [doc] && s'.persister.running == [] && s'.persister.spawners == 0
  {
    var s1 := PersisterStep(c, s, P.Receive);
    s' := PersisterStep(c, s1, P.Append);
    assert s'.persister.queue == [] + [doc];
    if s'.persister.loop.AtSelect? { s' := PersisterStep(c, s', P.Timeout); }
  }

  lemma DocumentHandedOver(c: Config, s: State, topic: string, doc: Document) returns (s': State)
    requires Reachable(c, s) && HasRoom(c, topic)
    requires s.persister.chan == [doc] && s.persister.queue == [] && s.persister.running == []
    requires s.persister.loop.AtSelect? && s.persister.spawners == 0
    ensures Reachable(c, s') && s'.rows == s.rows && s'.registrar == s.registrar && s'.persister.running == [[doc]]
  {
    var s1 := DocumentQueued(c, s, doc);
    s' := PersisterStep(c, s1, P.Acquire);
    assert s'.persister.running == [] + [[doc]];
  }

  /** The digest is in the row before the document is, and then the document is inserted. */
  lemma InsertedAfterProof(c: Config, topic: string, doc: Document, txid: string) returns (s: State)
    requires HasRoom(c, topic) && K.WellFormed(doc) && R.DigestFor(c.chain, [doc], txid).Some?
    ensures Reachable(c, s) && OneBatch(s.registrar, topic, doc, txid)
    ensures RowAt(s.rows, doc.id).proof.Some? && RowAt(s.rows, doc.id).body == Some(BodyOf(doc))
    ensures RowAt(s.rows, doc.id).proofStatus == Some(NotProofed)
  {
    var offered := DocumentOffered(c, topic, doc);
    var s0 := ProvenBeforeInsert(c, offered, topic, doc, txid);
    assert Offers(s0, PERSISTER, topic, doc);
    var s1 := GetterStarted(c, s0, topic);
    var s2 := DocumentFetched(c, s1, topic, doc);
    var s3 := DocumentHandedOver(c, s2, topic, doc);
    var write := PersisterWrite(0, true);
    assert P.Enabled(c.persist, s3.persister, P.Finish(0, true));
    s := System.Apply(c, s3, write);
    ReachableOn(c, s3, write);
    ProofAfter(c, s3, write, doc.id);
    StatusAfter(c, s3, write, doc.id);
    InsertsEffect(s3.rows, [doc], doc.id);
    assert doc in s3.persister.running[0] && doc in [doc];
  }

  /** A row that has a proof says NOT_PROOFED, when its document is inserted after its digest. */
  lemma ProvenButNotProofed(c: Config, topic: string, doc: Document, txid: string) returns (s: State)
    requires HasRoom(c, topic) && K.WellFormed(doc) && R.DigestFor(c.chain, [doc], txid).Some?
    ensures Reachable(c, s)
    ensures RowAt(s.rows, doc.id).proof.Some? && RowAt(s.rows, doc.id).proofStatus == Some(NotProofed)
  {
    s := InsertedAfterProof(c, topic, doc, txid);
  }

  // ---------------------------------------------------------------- a document that is verified

  lemma HashedForOne(h: Hash, docs: seq<Document>)
    requires |docs| == 1
    ensures HashedFor(h, docs) == {LeafInput(Leaf(CoreOf(docs[0])))}
  {
    assert Leaves(docs)[1..] == [] && Leaves(docs) == [Leaf(CoreOf(docs[0]))];
    assert SortedOf(Leaves(docs)) == [Leaf(CoreOf(docs[0]))];
  }

  /** What is hashed for single documents does not collide if their leaves do not. */
  lemma TwoAreSeparated(h: Hash, a: seq<Document>, b: seq<Document>)
    requires |a| == |b| == 1
    requires var x, y := LeafInput(Leaf(CoreOf(a[0]))), LeafInput(Leaf(CoreOf(b[0]))); h(x) == h(y) ==> x == y
    ensures Separated(h, a, b)
  {
    HashedForOne(h, a);
    HashedForOne(h, b);
  }

  lemma OnlyAnswered(c: Config, h: Hashes, s: State, topic: string, doc: Document, txid: string)
    requires OneBatch(s.registrar, topic, doc, txid) && R.Uses(c.chain, h) && FixedLength(h.sha256)
    ensures Unclashed(c, h, s)
  {
    assert forall t, digest :: R.Answered(c.chain, s.registrar, t, digest) ==> t == txid;
    assert R.DocsOf(s.registrar, txid) == [doc];
    TwoAreSeparated(h.sha256, [doc], [doc]);
  }

  /** The only row with a proof is that of the document. */
  lemma OnlyProven(c: Config, s: State, topic: string, doc: Document, txid: string, id: string)
    requires Inv(c, s) && OneBatch(s.registrar, topic, doc, txid) && RowAt(s.rows, id).proof.Some?
    ensures id == doc.id && txid in s.registrar.applied && R.DocsOf(s.registrar, txid) == [doc]
    ensures R.Answered(c.chain, s.registrar, txid, RowAt(s.rows, id).proof.value.blockDigest)
  {
    var p := RowAt(s.rows, id).proof.value;
    assert Proven(c.chain, s.registrar, id, p);
    assert p.txid == txid && R.DocsOf(s.registrar, txid) == [doc];
  }

  lemma OnlyFound(s: State, doc: Document)
    requires RowAt(s.rows, doc.id).proof.Some? && forall id :: RowAt(s.rows, id).proof.Some? ==> id == doc.id
    ensures FoundBy(s, RowAt(s.rows, doc.id).proof.value.blockDigest, [ToDocument(doc.id, RowAt(s.rows, doc.id))])
  {
    var digest, found := RowAt(s.rows, doc.id).proof.value.blockDigest, [ToDocument(doc.id, RowAt(s.rows, doc.id))];
    assert HasDigest(s.rows[doc.id], digest) && found[0] in found;
    forall id | id in s.rows && HasDigest(s.rows[id], digest) ensures id in Ids(found) {
      assert RowAt(s.rows, id).proof.Some?;
    }
  }

  lemma OnlySent(h: Hash, r: R.State, topic: string, doc: Document, txid: string, found: seq<Document>)
    requires OneBatch(r, topic, doc, txid) && Separated(h, found, [doc])
    ensures SeparatedFromSent(h, r, found)
  {
    assert forall b :: R.IsSent(r, b) ==> b == 0;
  }

  lemma PremisesHold(c: Config, h: Hashes, s: State, topic: string, doc: Document, txid: string, digest: string,
                     found: seq<Document>)
    requires Reachable(c, s) && OneBatch(s.registrar, topic, doc, txid)
    requires R.Uses(c.chain, h) && FixedLength(h.sha256) && Separated(h.sha256, found, [doc])
    requires RowAt(s.rows, doc.id).proof.Some? && digest == RowAt(s.rows, doc.id).proof.value.blockDigest
    requires found == [ToDocument(doc.id, RowAt(s.rows, doc.id))]
    ensures Unclashed(c, h, s) && SeparatedFromSent(h.sha256, s.registrar, found) && FoundBy(s, digest, found)
    ensures txid in s.registrar.applied && R.Answered(c.chain, s.registrar, txid, digest)
    ensures R.DocsOf(s.registrar, txid) == [doc]
  {
    OnlyAnswered(c, h, s, topic, doc, txid);
    assert Inv(c, s) by { ReachableInv(c, s); }
    forall id | RowAt(s.rows, id).proof.Some?
      ensures id == doc.id && txid in s.registrar.applied
      ensures R.Answered(c.chain, s.registrar, txid, RowAt(s.rows, id).proof.value.blockDigest)
    {
      OnlyProven(c, s, topic, doc, txid, id);
    }
    OnlyFound(s, doc);
    OnlySent(h.sha256, s.registrar, topic, doc, txid, found);
  }

  /** The premises of `VerificationAgrees` hold in a run in which a document is registered, completed and inserted;
      so what is read back has a root that the chain knows. */
  lemma DocumentVerifies(c: Config, h: Hashes, topic: string, doc: Document, txid: string)
    returns (s: State, digest: string, found: seq<Document>)
    requires HasRoom(c, topic) && K.WellFormed(doc) && R.DigestFor(c.chain, [doc], txid).Some?
    requires R.Uses(c.chain, h) && FixedLength(h.sha256)
    ensures Reachable(c, s) && Unclashed(c, h, s)
    ensures txid in s.registrar.applied && R.Answered(c.chain, s.registrar, txid, digest)
    ensures FoundBy(s, digest, found) && SeparatedFromSent(h.sha256, s.registrar, found)
    ensures |found| == 1 && CoreOf(found[0]) == CoreOf(doc) && RootOf(h.sha256, found) in s.registrar.registered
  {
    s := InsertedAfterProof(c, topic, doc, txid);
    digest, found := RowAt(s.rows, doc.id).proof.value.blockDigest, [ToDocument(doc.id, RowAt(s.rows, doc.id))];
    TwoAreSeparated(h.sha256, found, [doc]);
    PremisesHold(c, h, s, topic, doc, txid, digest, found);
    VerificationAgrees(c, h, s, txid, digest, found);
  }

  // ---------------------------------------------------------------- a document that never is

  lemma StillSkipped(a: K.State, b: K.State, doc: Document)
    requires SameForPersister(a, b) && K.Skipped(a, PERSISTER, doc)
    ensures K.Skipped(b, PERSISTER, doc)
  {
  }

  /** The digest of a document that was put before the persister subscribed is in the table. */
  lemma ProvenAndSkipped(c: Config, topic: string, doc: Document, txid: string) returns (s: State)
    requires topic in c.Limits() && c.Limits()[topic] >= 1 && K.WellFormed(doc)
    requires R.DigestFor(c.chain, [doc], txid).Some?
    ensures Reachable(c, s) && OneBatch(s.registrar, topic, doc, txid) && IsForsaken(s, doc)
    ensures RowAt(s.rows, doc.id).proof.Some? && RowAt(s.rows, doc.id).body.None?
  {
    var s0 := DocumentSkipped(c, topic, doc);
    s := ProvenBeforeInsert(c, s0, topic, doc, txid);
    StillSkipped(s0.cache, s.cache, doc);
    ReachableKept(c, s);
    ForsakenIsMissing(c, s, doc);
  }

  /** The premises of `MissingIsNotRegistered` hold in a run in which a document is put before the persister has
      subscribed, registered and completed; so the root that is read back is not registered, and as the document is
      forsaken, none ever will be. */
  lemma SkippedNeverVerifies(c: Config, h: Hashes, topic: string, doc: Document, txid: string)
    returns (s: State, digest: string, found: seq<Document>)
    requires topic in c.Limits() && c.Limits()[topic] >= 1 && K.WellFormed(doc)
    requires R.DigestFor(c.chain, [doc], txid).Some? && R.Uses(c.chain, h) && FixedLength(h.sha256)
    requires h.sha256(LeafInput(Leaf(Core(doc.id, 0, 0, "")))) != h.sha256(LeafInput(Leaf(CoreOf(doc))))
    ensures Reachable(c, s) && Unclashed(c, h, s)
    ensures txid in s.registrar.applied && R.Answered(c.chain, s.registrar, txid, digest)
    ensures FoundBy(s, digest, found) && SeparatedFromSent(h.sha256, s.registrar, found)
    ensures R.DocsOf(s.registrar, txid) == [doc] && IsForsaken(s, doc)
    ensures RootOf(h.sha256, found) !in s.registrar.registered
  {
    s := ProvenAndSkipped(c, topic, doc, txid);
    digest, found := RowAt(s.rows, doc.id).proof.value.blockDigest, [ToDocument(doc.id, RowAt(s.rows, doc.id))];
    TwoAreSeparated(h.sha256, found, [doc]);
    PremisesHold(c, h, s, topic, doc, txid, digest, found);
    ReachableInv(c, s);
    MissingIsNotRegistered(c, h, s, txid, digest, found, doc);
  }

  // ---------------------------------------------------------------- an update that fails

  lemma UpdateRefused(c: Config, s0: State, topic: string, doc: Document, txid: string) returns (s: State)
    requires Starts(c, s0, topic, doc) && R.DigestFor(c.chain, [doc], txid).Some?
    ensures Reachable(c, s) && OneBatch(s.registrar, topic, doc, txid)
    ensures s.registrar.completions == [Begun(c, doc, txid).(stage := R.BeforeDelete(0))]
    ensures s.registrar.items == map[txid := [doc]] && s.registrar.applied == map[]
  {
    var s1 := OneCompletion(c, s0, topic, doc, txid);
    var stamp := Registering(R.Stamp(0));
    var s2 := System.Apply(c, s1, stamp);
    ReachableOn(c, s1, stamp);
    s := System.Apply(c, s2, UpdateDigest(0, false));
    ReachableOn(c, s2, UpdateDigest(0, false));
  }

  lemma ForgottenUnproven(c: Config, r: R.State, topic: string, doc: Document, txid: string)
    requires OneBatch(r, topic, doc, txid) && r.items == map[txid := [doc]] && r.applied == map[]
    requires |r.completions| == 1 && r.completions[0].txid == txid && r.completions[0].stage.BeforeDelete?
    ensures var r' := R.Apply(c.chain, r, R.Delete(0)); R.Missed(r', txid) && R.DocsOf(r', txid) == [doc]
  {
  }

  /** The update of the only completion fails, and the batch is forgotten all the same. */
  lemma UpdateFails(c: Config, topic: string, doc: Document, txid: string) returns (s: State)
    requires topic in c.Limits() && c.Limits()[topic] >= 1 && K.WellFormed(doc)
    requires R.DigestFor(c.chain, [doc], txid).Some?
    ensures Reachable(c, s) && R.Missed(s.registrar, txid) && R.DocsOf(s.registrar, txid) == [doc]
  {
    var s0 := DocumentOffered(c, topic, doc);
    var s1 := UpdateRefused(c, s0, topic, doc, txid);
    var delete := Registering(R.Delete(0));
    s := System.Apply(c, s1, delete);
    ReachableOn(c, s1, delete);
    ForgottenUnproven(c, s1.registrar, topic, doc, txid);
  }
}
