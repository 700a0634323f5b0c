/** What holds at verification time: the documents read back by their digest, and the batch that was registered. */
module EndToEnd {
  import opened Wrappers
  import opened Documents
  import opened Merkle
  import opened Proofs
  import opened Cassandra
  import opened Blockchain
  import opened System
  import K = Kafka
  import P = Persister
  import R = Registrar

  /** The hash functions behave on what was hashed in this run: batches with different leaves have different roots
      for lack of collisions, and batches with different roots have been given different digests by the chain. */
  ghost predicate Unclashed(c: Config, h: Hashes, s: State) {
    && R.Uses(c.chain, h) && FixedLength(h.sha256)
    && forall t, u, digest ::
         R.Answered(c.chain, s.registrar, t, digest) && R.Answered(c.chain, s.registrar, u, digest) ==>
           && Separated(h.sha256, R.DocsOf(s.registrar, t), R.DocsOf(s.registrar, u))
           && RootOf(h.sha256, R.DocsOf(s.registrar, t)) == RootOf(h.sha256, R.DocsOf(s.registrar, u))
  }

  /** The document has been written by the persister. */
  predicate Inserted(s: State, id: string) {
    RowAt(s.rows, id).body.Some?
  }

  /** What the query for a digest lists. */
  ghost predicate FoundBy(s: State, digest: string, found: seq<Document>) {
    Lists(s.rows, row => HasDigest(row, digest), found)
  }

  // ---------------------------------------------------------------- provenance

  /** A row has a digest and a transaction id only if its document was in the batch stored under that transaction,
      the transaction's event reported on that batch's root, and the digest is made from what it reported. */
  lemma Provenance(c: Config, s: State, id: string)
    requires Reachable(c, s) && RowAt(s.rows, id).proof.Some?
    ensures var p, r := RowAt(s.rows, id).proof.value, s.registrar;
            && p.txid in r.accepted && r.accepted[p.txid] < |r.batches|
            && (var batch := r.batches[r.accepted[p.txid]];
                && R.Stored(batch.phase) && R.TxOf(batch.phase) == Some(p.txid) && id in Ids(batch.docs)
                && c.chain.root(batch.docs) in r.registered
                && c.chain.payloads(p.txid).Some? && c.chain.root(batch.docs) in c.chain.payloads(p.txid).value
                && p.blockDigest == c.chain.proofKey(c.chain.payloads(p.txid).value[c.chain.root(batch.docs)]))
  {
    ReachableInv(c, s);
    var p, r := RowAt(s.rows, id).proof.value, s.registrar;
    assert Proven(c.chain, r, id, p);
    assert R.IsTxOf(r, p.txid, r.accepted[p.txid]);
  }

  /** And the digest is, byte by byte in hexadecimal, the SHA-3 hash of what the event reported for the batch's root. */
  lemma ProvenanceInBytes(c: Config, h: Hashes, s: State, id: string)
    requires Reachable(c, s) && RowAt(s.rows, id).proof.Some? && R.Uses(c.chain, h)
    ensures var p := RowAt(s.rows, id).proof.value;
            var root := RootOf(h.sha256, R.DocsOf(s.registrar, p.txid));
            && id in Ids(R.DocsOf(s.registrar, p.txid)) && root in s.registrar.registered
            && c.chain.payloads(p.txid).Some? && root in c.chain.payloads(p.txid).value
            && (IsBytes(h.sha3(c.chain.payloads(p.txid).value[root])) ==>
                  IsHexOf(p.blockDigest, h.sha3(c.chain.payloads(p.txid).value[root])))
  {
    Provenance(c, s, id);
    var p := RowAt(s.rows, id).proof.value;
    ProofKeyIs(h, c.chain.payloads(p.txid).value[RootOf(h.sha256, R.DocsOf(s.registrar, p.txid))]);
  }

  /** Of a batch's rows all carry its transaction, if an update of a completion has reached the table, or none. */
  lemma DigestWhenApplied(c: Config, s: State, txid: string, doc: Document)
    requires Reachable(c, s) && doc in R.DocsOf(s.registrar, txid)
    ensures RowAt(s.rows, doc.id).proof.Some? <==> txid in s.registrar.applied
    ensures RowAt(s.rows, doc.id).proof.Some? ==> RowAt(s.rows, doc.id).proof.value.txid == txid
  {
    ReachableInv(c, s);
    if RowAt(s.rows, doc.id).proof.Some? {
      var p := RowAt(s.rows, doc.id).proof.value;
      assert Proven(c.chain, s.registrar, doc.id, p);
      var d :| d in R.DocsOf(s.registrar, p.txid) && d.id == doc.id;
      TransactionsAreDisjoint(c, s, txid, p.txid, doc, d);
    }
  }

  /** Each document the registrar was given is in exactly one of its batches, once; and a batch is
      being collected, submitted, stored, handled, cleared, or failed, never two of these. */
  lemma RegistrarConservation(c: Config, s: State, doc: Document)
    requires Reachable(c, s)
    ensures K.Given(s.cache, REGISTRAR, doc) <==> exists b :: Holds(s.registrar.batches, b, doc)
    ensures forall a, b :: Holds(s.registrar.batches, a, doc) && Holds(s.registrar.batches, b, doc) ==> a == b
    ensures forall b :: 0 <= b < |s.registrar.batches| ==> DistinctIds(s.registrar.batches[b].docs)
    ensures forall b :: 0 <= b < |s.registrar.batches| && s.registrar.batches[b].phase.Pending? ==>
              s.registrar.batches[b].phase.txid in s.registrar.items
              && s.registrar.items[s.registrar.batches[b].phase.txid] == s.registrar.batches[b].docs
  {
    ReachableInv(c, s);
    forall b | 0 <= b < |s.registrar.batches| && s.registrar.batches[b].phase.Pending?
      ensures s.registrar.batches[b].phase.txid in s.registrar.items
           && s.registrar.items[s.registrar.batches[b].phase.txid] == s.registrar.batches[b].docs
    {
      assert R.IsTxOf(s.registrar, s.registrar.batches[b].phase.txid, b);
    }
  }

  // ---------------------------------------------------------------- what is read back

  /** The rows with a batch's digest are the rows of that batch: no other batch has it. */
  lemma FoundAreBatch(c: Config, h: Hashes, s: State, txid: string, digest: string, found: seq<Document>)
    requires Inv(c, s) && Unclashed(c, h, s)
    requires txid in s.registrar.applied && R.Answered(c.chain, s.registrar, txid, digest)
    requires FoundBy(s, digest, found)
    ensures Ids(found) == Ids(R.DocsOf(s.registrar, txid))
  {
    forall id ensures id in Ids(found) <==> id in Ids(R.DocsOf(s.registrar, txid)) {
      FoundWhenInBatch(c, h, s, txid, digest, found, id);
    }
  }

  lemma FoundWhenInBatch(c: Config, h: Hashes, s: State, txid: string, digest: string, found: seq<Document>,
                         id: string)
    requires Inv(c, s) && Unclashed(c, h, s)
    requires txid in s.registrar.applied && R.Answered(c.chain, s.registrar, txid, digest)
    requires FoundBy(s, digest, found)
    ensures id in Ids(found) <==> id in Ids(R.DocsOf(s.registrar, txid))
  {
    if id in Ids(found) { FoundIsInBatch(c, h, s, txid, digest, found, id); }
    if id in Ids(R.DocsOf(s.registrar, txid)) { BatchIsFound(c, s, txid, digest, found, id); }
  }

  lemma FoundIsInBatch(c: Config, h: Hashes, s: State, txid: string, digest: string, found: seq<Document>, id: string)
    requires Inv(c, s) && Unclashed(c, h, s) && R.Answered(c.chain, s.registrar, txid, digest)
    requires FoundBy(s, digest, found) && id in Ids(found)
    ensures id in Ids(R.DocsOf(s.registrar, txid))
  {
    var d :| d in found && d.id == id;
    var p := RowAt(s.rows, id).proof.value;
    assert Proven(c.chain, s.registrar, id, p) && p.blockDigest == digest;
    SameDigestSameBatch(c, h, s, txid, p.txid, digest);
  }

  lemma BatchIsFound(c: Config, s: State, txid: string, digest: string, found: seq<Document>, id: string)
    requires Inv(c, s) && txid in s.registrar.applied && R.Answered(c.chain, s.registrar, txid, digest)
    requires FoundBy(s, digest, found) && id in Ids(R.DocsOf(s.registrar, txid))
    ensures id in Ids(found)
  {
    var d :| d in R.DocsOf(s.registrar, txid) && d.id == id;
    var p := RowAt(s.rows, id).proof.value;
    assert p.txid == txid && Proven(c.chain, s.registrar, id, p);
    assert HasDigest(s.rows[id], digest);
  }

  lemma SameDigestSameBatch(c: Config, h: Hashes, s: State, t: string, u: string, digest: string)
    requires Inv(c, s) && Unclashed(c, h, s)
    requires R.Answered(c.chain, s.registrar, t, digest) && R.Answered(c.chain, s.registrar, u, digest)
    ensures t == u
  {
    var r, a, b := s.registrar, R.DocsOf(s.registrar, t), R.DocsOf(s.registrar, u);
    assert R.IsTxOf(r, t, r.accepted[t]) && R.IsTxOf(r, u, r.accepted[u]);
    forall doc | doc in a || doc in b ensures |doc.id| == ID_LENGTH {
      assert Holds(r.batches, if doc in a then r.accepted[t] else r.accepted[u], doc);
      K.LoggedIsWellFormed(c.Limits(), s.cache, doc);
    }
    CommonRootCommonId(h.sha256, a, b);
    var id :| id in Ids(a) && id in Ids(b);
    var x :| x in a && x.id == id;
    var y :| y in b && y.id == id;
    TransactionsAreDisjoint(c, s, t, u, x, y);
  }

  /** Documents that agree id by id have the same cores, each once. */
  lemma SameCores(a: seq<Document>, b: seq<Document>)
    requires DistinctIds(a) && DistinctIds(b) && Ids(a) == Ids(b)
    requires forall x, y :: x in a && y in b && x.id == y.id ==> CoreOf(x) == CoreOf(y)
    ensures multiset(Cores(a)) == multiset(Cores(b))
  {
    forall core ensures multiset(Cores(a))[core] == multiset(Cores(b))[core] {
      CoreCount(a, core);
      CoreCount(b, core);
      if core in Cores(a) { CoreInOther(a, b, core); }
      if core in Cores(b) { CoreInOther(b, a, core); }
    }
  }

  lemma CoreInOther(a: seq<Document>, b: seq<Document>, core: Core)
    requires Ids(a) == Ids(b) && core in Cores(a)
    requires forall x, y :: x in a && y in b && x.id == y.id ==> CoreOf(x) == CoreOf(y)
    ensures core in Cores(b)
  {
    var i :| 0 <= i < |a| && Cores(a)[i] == core;
    assert a[i] in a && a[i].id in Ids(b);
    var y :| y in b && y.id == a[i].id;
    var j :| 0 <= j < |b| && b[j] == y;
    assert Cores(b)[j] == core;
  }

  lemma {:induction false} CoreCount(docs: seq<Document>, core: Core)
    requires DistinctIds(docs)
    ensures multiset(Cores(docs))[core] == if core in Cores(docs) then 1 else 0
  {
    if docs != [] {
      var init, last := docs[..|docs|-1], docs[|docs|-1];
      CoreCount(init, core);
      assert Cores(docs) == Cores(init) + [CoreOf(last)];
      forall i | 0 <= i < |init| ensures Cores(init)[i] != CoreOf(last) {
        assert docs[i].id != last.id;
      }
    }
  }

  /** A document of the batch that has been inserted is read back with the core it was registered with. */
  lemma ReadBackCore(c: Config, s: State, found: seq<Document>, digest: string, txid: string, x: Document,
                     doc: Document)
    requires Inv(c, s) && FoundBy(s, digest, found) && x in found
    requires doc in R.DocsOf(s.registrar, txid) && doc.id == x.id
    ensures Inserted(s, doc.id) ==> CoreOf(x) == CoreOf(doc)
    ensures !Inserted(s, doc.id) ==> CoreOf(x) == Core(doc.id, 0, 0, "")
  {
    var r := s.registrar;
    assert x == ToDocument(x.id, s.rows[x.id]);
    assert Holds(r.batches, r.accepted[txid], doc);
    if Inserted(s, doc.id) {
      var w :| w in s.persister.written && w.id == doc.id;
      WrittenIsFetched(s.persister, w);
      OneDocumentPerId(s.cache, w, doc);
    }
  }

  /** When every document of the batch has been inserted, what is read back has the registered root. */
  lemma AllInsertedAgree(c: Config, h: Hashes, s: State, txid: string, digest: string, found: seq<Document>)
    requires Inv(c, s) && Unclashed(c, h, s)
    requires txid in s.registrar.applied && R.Answered(c.chain, s.registrar, txid, digest)
    requires FoundBy(s, digest, found)
    requires forall doc :: doc in R.DocsOf(s.registrar, txid) ==> Inserted(s, doc.id)
    ensures RootOf(h.sha256, found) == RootOf(h.sha256, R.DocsOf(s.registrar, txid))
  {
    var docs := R.DocsOf(s.registrar, txid);
    FoundAreBatch(c, h, s, txid, digest, found);
    forall x, y | x in found && y in docs && x.id == y.id ensures CoreOf(x) == CoreOf(y) {
      ReadBackCore(c, s, found, digest, txid, x, y);
    }
    SameCores(found, docs);
    RootIsCanonical(h.sha256, found, docs);
  }

  /** The leaf of a row without a body is not the leaf of a document. */
  lemma BlankLeaf(doc: Document, other: Document)
    requires K.WellFormed(doc) && K.WellFormed(other)
    ensures Leaf(Core(doc.id, 0, 0, "")) != Leaf(CoreOf(other))
  {
    DecNatReadsBack(other.submitTime);
    assert Dec(0) == "0";
    assert Leaf(Core(doc.id, 0, 0, ""))[|doc.id|] == '0';
    assert Leaf(CoreOf(other))[|doc.id|] == DecNat(other.submitTime)[0];
  }

  /** The strings hashed for what was read back and for the batches sent to the chain do not collide. */
  ghost predicate SeparatedFromSent(h: Hash, r: R.State, found: seq<Document>) {
    forall b :: R.IsSent(r, b) ==> Separated(h, found, r.batches[b].docs)
  }

  /** When some document of the batch has not been inserted, what is read back has no batch's root. */
  lemma MissingDisagree(c: Config, h: Hashes, s: State, txid: string, digest: string, found: seq<Document>,
                        doc: Document, b: nat)
    requires Inv(c, s) && Unclashed(c, h, s)
    requires txid in s.registrar.applied && R.Answered(c.chain, s.registrar, txid, digest)
    requires FoundBy(s, digest, found)
    requires b < |s.registrar.batches| && Separated(h.sha256, found, s.registrar.batches[b].docs)
    requires doc in R.DocsOf(s.registrar, txid) && !Inserted(s, doc.id)
    ensures RootOf(h.sha256, found) != RootOf(h.sha256, s.registrar.batches[b].docs)
  {
    var docs := s.registrar.batches[b].docs;
    var leaf := Leaf(Core(doc.id, 0, 0, ""));
    FoundAreBatch(c, h, s, txid, digest, found);
    BlankIsFound(c, s, found, digest, txid, doc);
    BatchIsWellFormed(c, s, s.registrar.accepted[txid], doc);
    NoBlankLeaf(c, s, b, doc);
    assert leaf in multiset(Leaves(found)) && leaf !in multiset(Leaves(docs));
    RootDeterminesBatch(h.sha256, found, docs);
  }

  lemma BlankIsFound(c: Config, s: State, found: seq<Document>, digest: string, txid: string, doc: Document)
    requires Inv(c, s) && FoundBy(s, digest, found) && doc.id in Ids(found)
    requires doc in R.DocsOf(s.registrar, txid) && !Inserted(s, doc.id)
    ensures Leaf(Core(doc.id, 0, 0, "")) in Leaves(found)
  {
    var x :| x in found && x.id == doc.id;
    ReadBackCore(c, s, found, digest, txid, x, doc);
    var i :| 0 <= i < |found| && found[i] == x;
    assert Leaves(found)[i] == Leaf(Core(doc.id, 0, 0, ""));
  }

  lemma NoBlankLeaf(c: Config, s: State, b: nat, doc: Document)
    requires Inv(c, s) && b < |s.registrar.batches| && K.WellFormed(doc)
    ensures Leaf(Core(doc.id, 0, 0, "")) !in Leaves(s.registrar.batches[b].docs)
  {
    var docs := s.registrar.batches[b].docs;
    forall j | 0 <= j < |docs| ensures Leaves(docs)[j] != Leaf(Core(doc.id, 0, 0, "")) {
      BatchIsWellFormed(c, s, b, docs[j]);
      BlankLeaf(doc, docs[j]);
    }
  }

  lemma BatchIsWellFormed(c: Config, s: State, b: nat, doc: Document)
    requires Inv(c, s) && b < |s.registrar.batches| && doc in s.registrar.batches[b].docs
    ensures K.WellFormed(doc)
  {
    assert Holds(s.registrar.batches, b, doc);
    K.LoggedIsWellFormed(c.Limits(), s.cache, doc);
  }

  lemma MissingIsNotRegistered(c: Config, h: Hashes, s: State, txid: string, digest: string, found: seq<Document>,
                               doc: Document)
    requires Inv(c, s) && Unclashed(c, h, s) && SeparatedFromSent(h.sha256, s.registrar, found)
    requires txid in s.registrar.applied && R.Answered(c.chain, s.registrar, txid, digest)
    requires FoundBy(s, digest, found)
    requires doc in R.DocsOf(s.registrar, txid) && !Inserted(s, doc.id)
    ensures RootOf(h.sha256, found) !in s.registrar.registered
  {
    var root := RootOf(h.sha256, found);
    if root in s.registrar.registered {
      var b :| R.IsSent(s.registrar, b) && c.chain.root(s.registrar.batches[b].docs) == root;
      MissingDisagree(c, h, s, txid, digest, found, doc, b);
    }
  }

  /** The two halves agree: in every reachable state, for a batch whose update has reached the table, the documents
      found by its digest, in any order, give the registered root exactly if all its documents have been inserted.
      Otherwise they give no root that was ever registered, so the chain does not know it. */
  lemma VerificationAgrees(c: Config, h: Hashes, s: State, txid: string, digest: string, found: seq<Document>)
    requires Reachable(c, s) && Unclashed(c, h, s)
    requires txid in s.registrar.applied && R.Answered(c.chain, s.registrar, txid, digest)
    requires FoundBy(s, digest, found)
    requires Separated(h.sha256, found, R.DocsOf(s.registrar, txid))
    ensures Ids(found) == Ids(R.DocsOf(s.registrar, txid))
    ensures RootOf(h.sha256, R.DocsOf(s.registrar, txid)) in s.registrar.registered
    ensures RootOf(h.sha256, found) == RootOf(h.sha256, R.DocsOf(s.registrar, txid))
       <==> forall doc :: doc in R.DocsOf(s.registrar, txid) ==> Inserted(s, doc.id)
    ensures SeparatedFromSent(h.sha256, s.registrar, found) ==>
              (RootOf(h.sha256, found) in s.registrar.registered
               <==> forall doc :: doc in R.DocsOf(s.registrar, txid) ==> Inserted(s, doc.id))
  {
    ReachableInv(c, s);
    var docs := R.DocsOf(s.registrar, txid);
    FoundAreBatch(c, h, s, txid, digest, found);
    assert R.IsTxOf(s.registrar, txid, s.registrar.accepted[txid]);
    if forall doc :: doc in docs ==> Inserted(s, doc.id) {
      AllInsertedAgree(c, h, s, txid, digest, found);
    } else {
      var doc :| doc in docs && !Inserted(s, doc.id);
      MissingDisagree(c, h, s, txid, digest, found, doc, s.registrar.accepted[txid]);
      if SeparatedFromSent(h.sha256, s.registrar, found) {
        MissingIsNotRegistered(c, h, s, txid, digest, found, doc);
      }
    }
  }

  // ---------------------------------------------------------------- calls and their steps

  lemma DigestAsComputed(c: R.Chain, h: Hashes, docs: seq<Document>, txid: string)
    requires R.Uses(c, h)
    ensures R.DigestFor(c, docs, txid)
         == if c.payloads(txid).Some? then DigestFrom(h, docs, c.payloads(txid).value) else None
  {
  }

  /** Handling an event in one go is its goroutine's steps without another in between; a refused event is no step. */
  lemma EventIsItsSteps(c: Config, h: Hashes, s: State, txid: string, ok: bool)
    requires R.Uses(c.chain, h)
    ensures var after := AfterEvent(h, s.registrar.items, s.rows, txid, c.chain.payloads(txid), s.registrar.clock, ok);
            var j, s1 := |s.registrar.completions|, System.Apply(c, s, Registering(R.Begin(txid)));
            if after.failed then s1 == s
            else
              && Enabled(c, s1, Registering(R.Stamp(j)))
              && (var s2 := System.Apply(c, s1, Registering(R.Stamp(j)));
                  && Enabled(c, s2, UpdateDigest(j, ok))
                  && (var s3 := System.Apply(c, s2, UpdateDigest(j, ok));
                      && Enabled(c, s3, Registering(R.Delete(j)))
                      && (var s4 := System.Apply(c, s3, Registering(R.Delete(j)));
                          s4.registrar.items == after.items && s4.rows == after.rows)))
  {
    if txid in s.registrar.items {
      DigestAsComputed(c.chain, h, s.registrar.items[txid], txid);
    }
    if R.CanComplete(c.chain, s.registrar, txid) {
      R.EventSteps(c.chain, s.registrar, txid, ok);
    }
  }

  /** How the outcome of a call to the chain looks to the chain, which may register the root of a lost reply. */
  function ReplyOf(connected: bool, answer: Result<string>, registered: bool): R.Reply {
    if connected && answer.Ok? then R.Accepted(answer.value) else if connected && registered then R.Lost else R.Refused
  }

  /** Registering a batch in one go is its goroutine's steps without another in between: the call to the chain,
      and if that was accepted storing the batch. */
  lemma RegisterIsItsSteps(c: Config, h: Hashes, s: State, b: nat, connected: bool, answer: Result<string>,
                           registered: bool)
    requires R.Uses(c.chain, h) && FixedLength(h.sha256)
    requires b < |s.registrar.batches| && s.registrar.batches[b].phase.Collecting?
    requires answer.Ok? ==> answer.value !in s.registrar.accepted
    ensures var docs, register := s.registrar.batches[b].docs, R.Register(b, ReplyOf(connected, answer, registered));
            var items := AfterRegister(s.registrar.items, docs, RootOf(h.sha256, docs), connected, answer);
            && Enabled(c, s, Registering(register))
            && (var s1 := System.Apply(c, s, Registering(register));
                && b < |s1.registrar.batches|
                && if s1.registrar.batches[b].phase.Submitted? then
                     && Enabled(c, s1, Registering(R.Store(b)))
                     && System.Apply(c, s1, Registering(R.Store(b))).registrar.items == items
                   else s1.registrar.items == items)
            && System.Apply(c, s, Registering(register)).registrar.registered
               == s.registrar.registered
                  + if docs != [] && connected && (answer.Ok? || registered) then {RootOf(h.sha256, docs)} else {}
  {
    var docs := s.registrar.batches[b].docs;
    NoRootWhen(h, docs);
    R.RegisterSteps(c.chain, s.registrar, b, ReplyOf(connected, answer, registered));
  }

  /** The empty root stands for no documents, and for nothing else. */
  lemma NoRootWhen(h: Hashes, docs: seq<Document>)
    requires FixedLength(h.sha256)
    ensures RootOf(h.sha256, docs) == "" <==> docs == []
  {
    RootOfLength(h.sha256, docs);
  }

  // ---------------------------------------------------------------- batches and roots of a run

  lemma StepKeepsOrderly(c: Config, s: State, l: Label)
    requires R.Orderly(c.Limits(), s.registrar) && Enabled(c, s, l)
    ensures R.Orderly(c.Limits(), System.Apply(c, s, l).registrar)
  {
    RegistrarAfter(c, s, l);
    var step := RegistrarStep(c, s, l);
    if step.Some? { R.StepKeepsOrderly(c.Limits(), c.chain, s.registrar, step.value); }
  }

  /** In every run the registrar works on one batch of a topic at a time, and takes at most as many documents into it as
      the topic's limit says. */
  lemma {:induction false} BatchesAreOrderly(c: Config, states: seq<State>, labels: seq<Label>, n: nat)
    requires IsRun(c, states, labels) && n <= |labels|
    ensures R.Orderly(c.Limits(), states[n].registrar)
  {
    if n > 0 {
      BatchesAreOrderly(c, states, labels, n - 1);
      StepKeepsOrderly(c, states[n-1], labels[n-1]);
    }
  }

  /** The batches of a topic, one after the other, are what the registrar was given of it, in order. */
  ghost predicate InOrder(s: State, topic: string) {
    R.DocsOfTopic(s.registrar.batches, topic) == K.Delivered(s.cache, REGISTRAR, topic)
  }

  lemma TakeKeepsOrder(c: Config, s: State, b: nat, topic: string)
    requires InOrder(s, topic) && R.Orderly(c.Limits(), s.registrar) && Enabled(c, s, RegistrarTake(b))
    ensures InOrder(System.Apply(c, s, RegistrarTake(b)), topic)
  {
    var batches, own := s.registrar.batches, s.registrar.batches[b].topic;
    var doc := Offered(s, REGISTRAR, own);
    K.DeliveredAfter(c.Limits(), s.cache, K.Take(REGISTRAR, own), REGISTRAR, topic);
    if topic == own {
      R.OneDocMore(batches, b, doc);
    } else {
      R.OtherDocsStay(batches, batches[b := batches[b].(docs := batches[b].docs + [doc])], topic);
    }
  }

  lemma OtherKeepsOrder(c: Config, s: State, l: Label, topic: string)
    requires InOrder(s, topic) && Enabled(c, s, l) && !l.RegistrarTake?
    ensures InOrder(System.Apply(c, s, l), topic)
  {
    if l.Cache? {
      K.DeliveredAfter(c.Limits(), s.cache, l.cache, REGISTRAR, topic);
    } else if l.PersisterTake? {
      assert |PERSISTER| != |REGISTRAR|;
      K.DeliveredAfter(c.Limits(), s.cache, K.Take(PERSISTER, s.persister.getters[l.getter].topic), REGISTRAR, topic);
    } else if l.Registering? {
      R.DocsOfTopicStay(c.chain, s.registrar, l.step, topic);
    } else if l.UpdateDigest? {
      R.DocsOfTopicStay(c.chain, s.registrar, R.Update(l.completion, l.ok), topic);
    }
  }

  lemma InOrderAfter(c: Config, s: State, l: Label, topic: string)
    requires InOrder(s, topic) && R.Orderly(c.Limits(), s.registrar) && Enabled(c, s, l)
    ensures InOrder(System.Apply(c, s, l), topic)
  {
    if l.RegistrarTake? { TakeKeepsOrder(c, s, l.batch, topic); } else { OtherKeepsOrder(c, s, l, topic); }
  }

  /** In every run: no document is lost, repeated or passed over between what the cache gives and the batches. */
  lemma {:induction false} BatchesInOrder(c: Config, states: seq<State>, labels: seq<Label>, n: nat, topic: string)
    requires IsRun(c, states, labels) && n <= |labels|
    ensures InOrder(states[n], topic)
  {
    if n > 0 {
      BatchesInOrder(c, states, labels, n - 1, topic);
      BatchesAreOrderly(c, states, labels, n - 1);
      InOrderAfter(c, states[n-1], labels[n-1], topic);
    }
  }

  /** Step `i` has the chain register this root. */
  ghost predicate SendsAt(c: Config, states: seq<State>, labels: seq<Label>, i: int, root: string) {
    && 0 <= i < |labels| && i < |states| && labels[i].Registering?
    && R.Sends(c.chain, states[i].registrar, labels[i].step, root)
  }

  lemma RegisteredAt(c: Config, states: seq<State>, labels: seq<Label>, i: nat, root: string)
    requires Steps(c, states, labels) && i < |labels|
    ensures root in states[i+1].registrar.registered
       <==> root in states[i].registrar.registered || SendsAt(c, states, labels, i, root)
  {
    RegistrarAfter(c, states[i], labels[i]);
    var step := RegistrarStep(c, states[i], labels[i]);
    if step.Some? { R.RegisteredAfter(c.chain, states[i].registrar, step.value, root); }
  }

  /** What is added step by step, and never taken away, is there exactly if some step has added it. */
  lemma {:induction false} ThereWhen(there: seq<bool>, added: seq<bool>, n: nat)
    requires |there| == |added| + 1 && !there[0] && n < |there|
    requires forall i :: 0 <= i < |added| ==> there[i+1] == (there[i] || added[i])
    ensures there[n] <==> exists i :: 0 <= i < n && added[i]
  {
    if n > 0 {
      ThereWhen(there, added, n - 1);
      assert there[n-1+1] == (there[n-1] || added[n-1]);
    }
  }

  /** The roots registered are those of the batches that were sent and not refused, whether or not the reply came. */
  lemma RegisteredWhen(c: Config, states: seq<State>, labels: seq<Label>, n: nat, root: string)
    requires IsRun(c, states, labels) && n <= |labels|
    ensures root in states[n].registrar.registered <==> exists i :: 0 <= i < n && SendsAt(c, states, labels, i, root)
  {
    var there := seq(|states|, i requires 0 <= i < |states| => root in states[i].registrar.registered);
    var added := seq(|labels|, i requires 0 <= i < |labels| => SendsAt(c, states, labels, i, root));
    forall i | 0 <= i < |added| ensures there[i+1] == (there[i] || added[i]) {
      RegisteredAt(c, states, labels, i, root);
    }
    ThereWhen(there, added, n);
    assert forall i :: 0 <= i < n ==> added[i] == SendsAt(c, states, labels, i, root);
  }
}
