/** The whole program as one step system: the Kafka cache feeds the persister and the registrar,
and both write to one table. Every interleaving of their steps is a run. */
module System {
  import opened Wrappers
  import opened Documents
  import opened Cassandra
  import opened Blockchain
  import K = Kafka
  import P = Persister
  import R = Registrar

  const PERSISTER := "persister"
  const REGISTRAR := "blockchain"

  datatype Config = Config(persist: P.Config, chain: R.Chain) {
    function Limits(): K.Limits {
      persist.limits
    }
  }

  datatype State = State(cache: K.State, persister: P.State, registrar: R.State, rows: Rows)

  const INIT := State(K.INIT, P.INIT, R.INIT, map[])

  datatype Label =
    | Cache(cache: K.Label)
    | Persist(persist: P.Label)
    | PersisterTake(getter: nat)
    | PersisterWrite(write: nat, ok: bool)
    | Registering(step: R.Label)
    | RegistrarTake(batch: nat)
    | UpdateDigest(completion: nat, ok: bool)
    | Sign(id: string, sign: string)

  predicate CanTake(s: State, name: string, topic: string) {
    K.CanTake(s.cache, name, topic)
  }

  /** The document a consumer's `Get` takes next. */
  function Offered(s: State, name: string, topic: string): Document
    requires CanTake(s, name, topic)
  {
    K.LaneOf(s.cache, name, topic).chan[0]
  }

  predicate Enabled(c: Config, s: State, l: Label) {
    match l
    case Cache(step) => !step.Take? && K.Enabled(c.Limits(), s.cache, step)
    case Persist(step) => !step.Take? && !step.Finish? && P.Enabled(c.persist, s.persister, step)
    case PersisterTake(g) =>
      && g < |s.persister.getters| && CanTake(s, PERSISTER, s.persister.getters[g].topic)
      && P.Enabled(c.persist, s.persister, P.Take(g, Offered(s, PERSISTER, s.persister.getters[g].topic)))
    case PersisterWrite(i, ok) => P.Enabled(c.persist, s.persister, P.Finish(i, ok))
    case Registering(step) => !step.Collect? && !step.Update? && R.Enabled(c.chain, s.registrar, step)
    case RegistrarTake(b) =>
      && b < |s.registrar.batches| && CanTake(s, REGISTRAR, s.registrar.batches[b].topic)
      && s.registrar.batches[b].topic in c.Limits()
      && |s.registrar.batches[b].docs| < c.Limits()[s.registrar.batches[b].topic]
      && R.Enabled(c.chain, s.registrar, R.Collect(b, Offered(s, REGISTRAR, s.registrar.batches[b].topic)))
    case UpdateDigest(j, ok) => R.Enabled(c.chain, s.registrar, R.Update(j, ok))
    case Sign(id, sign) => id != "" && sign != ""
  }

  function Apply(c: Config, s: State, l: Label): State
    requires Enabled(c, s, l)
  {
    match l
    case Cache(step) => s.(cache := K.Apply(c.Limits(), s.cache, step))
    case Persist(step) => s.(persister := P.Apply(c.persist, s.persister, step))
    case PersisterTake(g) =>
      var topic := s.persister.getters[g].topic;
      s.(cache := K.Apply(c.Limits(), s.cache, K.Take(PERSISTER, topic)),
         persister := P.Apply(c.persist, s.persister, P.Take(g, Offered(s, PERSISTER, topic))))
    case PersisterWrite(i, ok) =>
      s.(persister := P.Apply(c.persist, s.persister, P.Finish(i, ok)),
         rows := if ok then Execute(s.rows, Inserts(s.persister.running[i])) else s.rows)
    case Registering(step) => s.(registrar := R.Apply(c.chain, s.registrar, step))
    case RegistrarTake(b) =>
      var topic := s.registrar.batches[b].topic;
      s.(cache := K.Apply(c.Limits(), s.cache, K.Take(REGISTRAR, topic)),
         registrar := R.Apply(c.chain, s.registrar, R.Collect(b, Offered(s, REGISTRAR, topic))))
    case UpdateDigest(j, ok) =>
      var done := s.registrar.completions[j];
      s.(registrar := R.Apply(c.chain, s.registrar, R.Update(j, ok)),
         rows := if ok then Execute(s.rows, DigestUpdates(IdsOf(done.docs), ProofOf(done))) else s.rows)
    case Sign(id, sign) => s.(rows := Cassandra.Apply(s.rows, SetSign(id, sign)))
  }

  /** What a completion that has read the clock writes into the rows of its batch. */
  function ProofOf(done: R.Completion): Proof
    requires !done.stage.BeforeStamp?
  {
    Proof(done.digest, done.stage.stamp, done.txid)
  }

  /** The registrar's share of a step, if it has one. */
  function RegistrarStep(c: Config, s: State, l: Label): Option<R.Label>
    requires Enabled(c, s, l)
  {
    match l
    case Registering(step) => Some(step)
    case RegistrarTake(b) => Some(R.Collect(b, Offered(s, REGISTRAR, s.registrar.batches[b].topic)))
    case UpdateDigest(j, ok) => Some(R.Update(j, ok))
    case _ => None
  }

  /** Each label takes one state to the next. */
  ghost predicate Steps(c: Config, states: seq<State>, labels: seq<Label>) {
    && |states| == |labels| + 1
    && forall i :: 0 <= i < |labels| ==>
         Enabled(c, states[i], labels[i]) && states[i+1] == Apply(c, states[i], labels[i])
  }

  ghost predicate IsRun(c: Config, states: seq<State>, labels: seq<Label>) {
    |states| == |labels| + 1 && states[0] == INIT && Steps(c, states, labels)
  }

  ghost predicate Reachable(c: Config, s: State) {
    exists states, labels :: IsRun(c, states, labels) && states[|labels|] == s
  }

  // ---------------------------------------------------------------- what every run keeps

  /** What the persister took from the cache is in the logs. */
  ghost predicate Fed(cache: K.State, p: P.State) {
    forall doc :: doc in p.fetched ==> K.Logged(cache, doc)
  }

  ghost predicate Holds(batches: seq<R.Batch>, b: int, doc: Document) {
    0 <= b < |batches| && doc in batches[b].docs
  }

  /** The batches hold what the registrar was given, and no id is twice in a batch or in two batches. */
  ghost predicate BatchesInv(cache: K.State, batches: seq<R.Batch>) {
    && (forall b, doc :: Holds(batches, b, doc) ==> K.Given(cache, REGISTRAR, doc))
    && (forall b :: 0 <= b < |batches| ==> DistinctIds(batches[b].docs))
    && (forall a, b, doc :: Holds(batches, a, doc) && Holds(batches, b, doc) ==> a == b)
  }

  /** Every document the registrar was given is in a batch. */
  ghost predicate Accounted(cache: K.State, batches: seq<R.Batch>) {
    forall doc :: K.Given(cache, REGISTRAR, doc) ==> exists b :: Holds(batches, b, doc)
  }

  /** The table: a row has a body exactly if its document was written, and has a proof only from the last update of
      its own batch; where an update has reached the table, all rows of the batch have the digest. */
  ghost predicate BodiesInv(p: P.State, rows: Rows) {
    && (forall doc :: doc in p.written ==> RowAt(rows, doc.id).body == Some(BodyOf(doc)))
    && (forall id :: RowAt(rows, id).body.Some? ==> id in Ids(p.written))
  }

  /** The stamp of the last update of a transaction that has reached the table. */
  function LastStamp(r: R.State, txid: string): Option<int> {
    if txid in r.applied && R.IsUpdated(r, r.applied[txid]) then Some(r.completions[r.applied[txid]].stage.stamp)
    else None
  }

  ghost predicate Proven(chain: R.Chain, r: R.State, id: string, p: Proof) {
    && p.txid in r.applied && R.Answered(chain, r, p.txid, p.blockDigest) && id in Ids(R.DocsOf(r, p.txid))
    && LastStamp(r, p.txid) == Some(p.proofTime)
  }

  ghost predicate ProofsInv(chain: R.Chain, r: R.State, rows: Rows) {
    && (forall id :: RowAt(rows, id).proof.Some? ==> Proven(chain, r, id, RowAt(rows, id).proof.value))
    && (forall txid, doc :: txid in r.applied && doc in R.DocsOf(r, txid) ==>
          RowAt(rows, doc.id).proof.Some? && RowAt(rows, doc.id).proof.value.txid == txid)
  }

  ghost predicate Inv(c: Config, s: State) {
    && K.Inv(c.Limits(), s.cache) && P.Inv(c.persist, s.persister) && R.Inv(c.chain, s.registrar)
    && Fed(s.cache, s.persister) && BatchesInv(s.cache, s.registrar.batches)
    && Accounted(s.cache, s.registrar.batches)
    && BodiesInv(s.persister, s.rows) && ProofsInv(c.chain, s.registrar, s.rows)
  }

  // ---- the cache feeds both

  lemma CacheStepKeepsFeeds(limits: K.Limits, cache: K.State, step: K.Label, p: P.State, batches: seq<R.Batch>)
    requires K.Enabled(limits, cache, step) && Fed(cache, p) && BatchesInv(cache, batches)
    ensures Fed(K.Apply(limits, cache, step), p) && BatchesInv(K.Apply(limits, cache, step), batches)
  {
    forall doc | doc in p.fetched ensures K.Logged(K.Apply(limits, cache, step), doc) {
      K.LoggedStays(limits, cache, step, doc);
    }
    forall b, doc | Holds(batches, b, doc) ensures K.Given(K.Apply(limits, cache, step), REGISTRAR, doc) {
      K.GivenStays(limits, cache, step, REGISTRAR, doc);
    }
  }

  lemma CacheStepKeepsAccounted(limits: K.Limits, cache: K.State, step: K.Label, batches: seq<R.Batch>)
    requires K.Inv(limits, cache) && K.Enabled(limits, cache, step) && Accounted(cache, batches)
    requires step.Take? ==> step.name != REGISTRAR
    ensures Accounted(K.Apply(limits, cache, step), batches)
  {
    forall doc | K.Given(K.Apply(limits, cache, step), REGISTRAR, doc) ensures K.Given(cache, REGISTRAR, doc) {
      K.NewlyGiven(limits, cache, step, REGISTRAR, doc);
    }
  }

  lemma CollectKeepsAccounted(limits: K.Limits, before: K.State, cache: K.State, batches: seq<R.Batch>, b: nat,
                              doc: Document)
    requires Accounted(before, batches) && b < |batches|
    requires forall d :: K.Given(cache, REGISTRAR, d) ==> K.Given(before, REGISTRAR, d) || d == doc
    ensures Accounted(cache, batches[b := batches[b].(docs := batches[b].docs + [doc])])
  {
    var batches' := batches[b := batches[b].(docs := batches[b].docs + [doc])];
    forall d | K.Given(cache, REGISTRAR, d) ensures exists a :: Holds(batches', a, d) {
      if d == doc {
        assert Holds(batches', b, d);
      } else {
        var a :| Holds(batches, a, d);
        assert Holds(batches', a, d);
      }
    }
  }

  lemma TakeGivesOne(limits: K.Limits, cache: K.State, topic: string)
    requires K.Inv(limits, cache) && K.CanTake(cache, REGISTRAR, topic)
    requires K.Enabled(limits, cache, K.Take(REGISTRAR, topic))
    ensures forall d :: K.Given(K.Apply(limits, cache, K.Take(REGISTRAR, topic)), REGISTRAR, d) ==>
              K.Given(cache, REGISTRAR, d) || d == K.LaneOf(cache, REGISTRAR, topic).chan[0]
  {
    forall d | K.Given(K.Apply(limits, cache, K.Take(REGISTRAR, topic)), REGISTRAR, d)
      ensures K.Given(cache, REGISTRAR, d) || d == K.LaneOf(cache, REGISTRAR, topic).chan[0]
    {
      K.NewlyGiven(limits, cache, K.Take(REGISTRAR, topic), REGISTRAR, d);
    }
  }

  /** A batch takes a document that the registrar had not been given: it is in no batch yet. */
  lemma CollectKeepsBatches(before: K.State, cache: K.State, batches: seq<R.Batch>, b: nat, doc: Document)
    requires b < |batches| && BatchesInv(before, batches) && BatchesInv(cache, batches)
    requires K.Logged(before, doc) && !K.Given(before, REGISTRAR, doc) && K.Given(cache, REGISTRAR, doc)
    ensures BatchesInv(cache, batches[b := batches[b].(docs := batches[b].docs + [doc])])
  {
    var batches' := batches[b := batches[b].(docs := batches[b].docs + [doc])];
    assert forall a, d :: Holds(batches', a, d) <==> Holds(batches, a, d) || (a == b && d == doc);
    assert forall a :: !Holds(batches, a, doc);
    var docs := batches[b].docs;
    forall i | 0 <= i < |docs| ensures docs[i].id != doc.id {
      assert Holds(batches, b, docs[i]);
    }
  }

  /** One id has one document. */
  lemma OneDocumentPerId(cache: K.State, a: Document, b: Document)
    requires K.Logged(cache, a) && K.Logged(cache, b) && a.id == b.id
    ensures a == b
  {
  }

  // ---- bodies

  lemma WrittenIsFetched(p: P.State, doc: Document)
    requires P.Conserved(p) && (doc in p.written || exists i :: 0 <= i < |p.running| && doc in p.running[i])
    ensures doc in p.fetched
  {
    if doc !in p.written {
      var i :| 0 <= i < |p.running| && doc in p.running[i];
      P.AllSplit(p.running, i);
    }
    assert doc in multiset(p.fetched);
  }

  lemma InsertKeepsBodies(cache: K.State, p: P.State, docs: seq<Document>, rows: Rows, p': P.State)
    requires BodiesInv(p, rows) && p'.written == p.written + docs
    requires forall doc :: doc in docs || doc in p.written ==> K.Logged(cache, doc)
    ensures BodiesInv(p', Execute(rows, Inserts(docs)))
  {
    var rows' := Execute(rows, Inserts(docs));
    forall doc | doc in p'.written ensures RowAt(rows', doc.id).body == Some(BodyOf(doc)) {
      InsertsEffect(rows, docs, doc.id);
      if doc.id in Ids(docs) {
        var d :| d in docs && d.id == doc.id && RowAt(rows', doc.id).body == Some(BodyOf(d));
        OneDocumentPerId(cache, d, doc);
      } else {
        assert doc in p.written;
      }
    }
    forall id | RowAt(rows', id).body.Some? ensures id in Ids(p'.written) {
      InsertsEffect(rows, docs, id);
      var d :| (d in docs || d in p.written) && d.id == id;
      assert d in p'.written;
    }
  }

  lemma InsertKeepsProofs(chain: R.Chain, r: R.State, docs: seq<Document>, rows: Rows)
    requires ProofsInv(chain, r, rows)
    ensures ProofsInv(chain, r, Execute(rows, Inserts(docs)))
  {
    forall id ensures RowAt(Execute(rows, Inserts(docs)), id).proof == RowAt(rows, id).proof {
      InsertsEffect(rows, docs, id);
    }
  }

  lemma UpdateKeepsBodies(p: P.State, ids: seq<string>, proof: Proof, rows: Rows)
    requires BodiesInv(p, rows)
    ensures BodiesInv(p, Execute(rows, DigestUpdates(ids, proof)))
  {
    forall id ensures RowAt(Execute(rows, DigestUpdates(ids, proof)), id).body == RowAt(rows, id).body {
      DigestUpdatesEffect(rows, ids, proof, id);
    }
  }

  // ---- proofs

  /** Batches of different transactions share no id. */
  lemma TransactionsAreDisjoint(c: Config, s: State, t: string, u: string, a: Document, b: Document)
    requires R.AcceptedInv(c.chain, s.registrar) && BatchesInv(s.cache, s.registrar.batches)
    requires a in R.DocsOf(s.registrar, t) && b in R.DocsOf(s.registrar, u) && a.id == b.id
    ensures t == u && a == b
  {
    var r := s.registrar;
    assert R.IsTxOf(r, t, r.accepted[t]) && R.IsTxOf(r, u, r.accepted[u]);
    assert Holds(r.batches, r.accepted[t], a) && Holds(r.batches, r.accepted[u], b);
    OneDocumentPerId(s.cache, a, b);
  }

  lemma LastStampStays(chain: R.Chain, r: R.State, step: R.Label, txid: string)
    requires R.Enabled(chain, r, step) && LastStamp(r, txid).Some?
    requires step.Update? && step.ok ==> r.completions[step.completion].txid != txid
    ensures txid in R.Apply(chain, r, step).applied && LastStamp(R.Apply(chain, r, step), txid) == LastStamp(r, txid)
  {
    R.AppliedKept(chain, r, step, txid);
    R.StampStays(chain, r, step, r.applied[txid]);
  }

  lemma ProvenGrows(chain: R.Chain, r: R.State, r': R.State, id: string, p: Proof)
    requires R.AcceptedInv(chain, r) && R.Grows(r, r') && Proven(chain, r, id, p)
    requires p.txid in r'.applied && LastStamp(r', p.txid) == LastStamp(r, p.txid)
    ensures Proven(chain, r', id, p)
  {
    R.AnsweredGrows(chain, r, r', p.txid, p.blockDigest);
  }

  lemma ProvenStays(chain: R.Chain, r: R.State, step: R.Label, id: string, p: Proof)
    requires R.AcceptedInv(chain, r) && R.Enabled(chain, r, step) && Proven(chain, r, id, p)
    requires step.Update? && step.ok ==> r.completions[step.completion].txid != p.txid
    ensures Proven(chain, R.Apply(chain, r, step), id, p)
  {
    R.StepGrows(chain, r, step);
    LastStampStays(chain, r, step, p.txid);
    ProvenGrows(chain, r, R.Apply(chain, r, step), id, p);
  }

  /** A step of the registrar that does not touch the table leaves every proof proven. */
  lemma RegistrarStepKeepsProofs(chain: R.Chain, r: R.State, step: R.Label, rows: Rows)
    requires R.Inv(chain, r) && R.Enabled(chain, r, step) && ProofsInv(chain, r, rows)
    requires !(step.Update? && step.ok)
    ensures ProofsInv(chain, R.Apply(chain, r, step), rows)
  {
    var r' := R.Apply(chain, r, step);
    R.StepGrows(chain, r, step);
    R.OnlyUpdateApplies(chain, r, step);
    forall id | RowAt(rows, id).proof.Some? ensures Proven(chain, r', id, RowAt(rows, id).proof.value) {
      ProvenStays(chain, r, step, id, RowAt(rows, id).proof.value);
    }
    forall txid, doc | txid in r'.applied && doc in R.DocsOf(r', txid)
      ensures RowAt(rows, doc.id).proof.Some? && RowAt(rows, doc.id).proof.value.txid == txid
    {
      var digest :| R.Answered(chain, r, txid, digest);
      R.AnsweredGrows(chain, r, r', txid, digest);
    }
  }

  /** The update of a completion, and the table after it. */
  ghost predicate Updates(c: Config, s: State, j: nat, r': R.State, rows': Rows) {
    && R.Enabled(c.chain, s.registrar, R.Update(j, true)) && r' == R.Apply(c.chain, s.registrar, R.Update(j, true))
    && var done := s.registrar.completions[j];
       rows' == Execute(s.rows, DigestUpdates(IdsOf(done.docs), ProofOf(done)))
  }

  lemma RowAfterUpdate(c: Config, s: State, j: nat, r': R.State, rows': Rows, id: string)
    requires Inv(c, s) && Updates(c, s, j, r', rows')
    ensures var done := s.registrar.completions[j];
            RowAt(rows', id).proof
            == if id in Ids(R.DocsOf(s.registrar, done.txid)) then Some(ProofOf(done)) else RowAt(s.rows, id).proof
  {
    var done := s.registrar.completions[j];
    DigestUpdatesEffect(s.rows, IdsOf(done.docs), ProofOf(done), id);
    IdsOfMembers(done.docs, id);
  }

  /** A completion that updates the table is the last to have done so. */
  lemma UpdateIsLast(chain: R.Chain, r: R.State, j: nat)
    requires R.Inv(chain, r) && R.Enabled(chain, r, R.Update(j, true))
    ensures var done, r' := r.completions[j], R.Apply(chain, r, R.Update(j, true));
            && done.txid in r'.applied && LastStamp(r', done.txid) == Some(done.stage.stamp)
            && R.Answered(chain, r', done.txid, done.digest) && R.DocsOf(r', done.txid) == R.DocsOf(r, done.txid)
  {
    var done := r.completions[j];
    R.StepGrows(chain, r, R.Update(j, true));
    assert R.Answered(chain, r, done.txid, done.digest);
    R.AnsweredGrows(chain, r, R.Apply(chain, r, R.Update(j, true)), done.txid, done.digest);
  }

  lemma UpdateProves(c: Config, s: State, j: nat, r': R.State, rows': Rows, id: string)
    requires Inv(c, s) && Updates(c, s, j, r', rows') && RowAt(rows', id).proof.Some?
    ensures Proven(c.chain, r', id, RowAt(rows', id).proof.value)
  {
    var r, done := s.registrar, s.registrar.completions[j];
    RowAfterUpdate(c, s, j, r', rows', id);
    if id in Ids(R.DocsOf(r, done.txid)) {
      UpdateIsLast(c.chain, r, j);
    } else {
      ProvenStays(c.chain, r, R.Update(j, true), id, RowAt(s.rows, id).proof.value);
    }
  }

  lemma UpdateReachesRows(c: Config, s: State, j: nat, r': R.State, rows': Rows, txid: string, doc: Document)
    requires Inv(c, s) && Updates(c, s, j, r', rows') && txid in r'.applied && doc in R.DocsOf(r', txid)
    ensures RowAt(rows', doc.id).proof.Some? && RowAt(rows', doc.id).proof.value.txid == txid
  {
    var r, done := s.registrar, s.registrar.completions[j];
    RowAfterUpdate(c, s, j, r', rows', doc.id);
    UpdateIsLast(c.chain, r, j);
    if txid != done.txid {
      R.AppliedAfter(c.chain, r, R.Update(j, true), txid);
      R.StepGrows(c.chain, r, R.Update(j, true));
      var digest :| R.Answered(c.chain, r, txid, digest);
      R.AnsweredGrows(c.chain, r, r', txid, digest);
      if doc.id in Ids(R.DocsOf(r, done.txid)) {
        var d :| d in R.DocsOf(r, done.txid) && d.id == doc.id;
        TransactionsAreDisjoint(c, s, txid, done.txid, doc, d);
      }
    }
  }

  lemma UpdateKeepsProofs(c: Config, s: State, j: nat, r': R.State, rows': Rows)
    requires Inv(c, s) && Updates(c, s, j, r', rows')
    ensures ProofsInv(c.chain, r', rows')
  {
    forall id | RowAt(rows', id).proof.Some? ensures Proven(c.chain, r', id, RowAt(rows', id).proof.value) {
      UpdateProves(c, s, j, r', rows', id);
    }
    forall txid, doc | txid in r'.applied && doc in R.DocsOf(r', txid)
      ensures RowAt(rows', doc.id).proof.Some? && RowAt(rows', doc.id).proof.value.txid == txid
    {
      UpdateReachesRows(c, s, j, r', rows', txid, doc);
    }
  }

  // ---- steps

  lemma PersistKeepsInv(c: Config, s: State, step: P.Label)
    requires Inv(c, s) && Enabled(c, s, Persist(step))
    ensures Inv(c, Apply(c, s, Persist(step)))
  {
    P.StepKeepsInv(c.persist, s.persister, step);
    P.NeitherFetchedNorWritten(c.persist, s.persister, step);
  }

  lemma TakeKeepsFed(cfg: P.Config, cache: K.State, p: P.State, g: nat, doc: Document)
    requires Fed(cache, p) && K.Logged(cache, doc) && P.Enabled(cfg, p, P.Take(g, doc))
    ensures Fed(cache, P.Apply(cfg, p, P.Take(g, doc))) && P.Apply(cfg, p, P.Take(g, doc)).written == p.written
  {
  }

  lemma PersisterTakeKeepsInv(c: Config, s: State, g: nat)
    requires Inv(c, s) && Enabled(c, s, PersisterTake(g))
    ensures Inv(c, Apply(c, s, PersisterTake(g)))
  {
    var topic := s.persister.getters[g].topic;
    var doc, take := Offered(s, PERSISTER, topic), K.Take(PERSISTER, topic);
    K.OfferedIsNew(c.Limits(), s.cache, PERSISTER, topic);
    K.StepKeepsInv(c.Limits(), s.cache, take);
    K.LoggedStays(c.Limits(), s.cache, take, doc);
    CacheStepKeepsFeeds(c.Limits(), s.cache, take, s.persister, s.registrar.batches);
    CacheStepKeepsAccounted(c.Limits(), s.cache, take, s.registrar.batches);
    TakeKeepsFed(c.persist, K.Apply(c.Limits(), s.cache, take), s.persister, g, doc);
    P.StepKeepsInv(c.persist, s.persister, P.Take(g, doc));
  }

  lemma PersisterWriteKeepsInv(c: Config, s: State, i: nat, ok: bool)
    requires Inv(c, s) && Enabled(c, s, PersisterWrite(i, ok))
    ensures Inv(c, Apply(c, s, PersisterWrite(i, ok)))
  {
    var p, p' := s.persister, P.Apply(c.persist, s.persister, P.Finish(i, ok));
    P.StepKeepsInv(c.persist, p, P.Finish(i, ok));
    if ok {
      var docs := p.running[i];
      forall doc | doc in docs || doc in p.written ensures K.Logged(s.cache, doc) {
        WrittenIsFetched(p, doc);
      }
      InsertKeepsBodies(s.cache, p, docs, s.rows, p');
      InsertKeepsProofs(c.chain, s.registrar, docs, s.rows);
    }
  }

  lemma RegisteringKeepsInv(c: Config, s: State, step: R.Label)
    requires Inv(c, s) && Enabled(c, s, Registering(step))
    ensures Inv(c, Apply(c, s, Registering(step)))
  {
    assert Apply(c, s, Registering(step)) == s.(registrar := R.Apply(c.chain, s.registrar, step));
    R.StepKeepsInv(c.chain, s.registrar, step);
    RegistrarStepKeepsProofs(c.chain, s.registrar, step, s.rows);
    RegisteringKeepsBatches(c.chain, s.cache, s.registrar, step);
  }

  lemma RegisteringMovesNoDocs(chain: R.Chain, r: R.State, step: R.Label, b: nat)
    requires R.Enabled(chain, r, step) && !step.Collect?
    requires b < |r.batches| || b < |R.Apply(chain, r, step).batches|
    ensures b < |R.Apply(chain, r, step).batches|
    ensures R.Apply(chain, r, step).batches[b].docs == if b < |r.batches| then r.batches[b].docs else []
  {
  }

  lemma RegisteringKeepsBatches(chain: R.Chain, cache: K.State, r: R.State, step: R.Label)
    requires R.Enabled(chain, r, step) && !step.Collect? && BatchesInv(cache, r.batches) && Accounted(cache, r.batches)
    ensures BatchesInv(cache, R.Apply(chain, r, step).batches) && Accounted(cache, R.Apply(chain, r, step).batches)
  {
    var batches' := R.Apply(chain, r, step).batches;
    forall b, doc | Holds(batches', b, doc) ensures Holds(r.batches, b, doc) {
      RegisteringMovesNoDocs(chain, r, step, b);
    }
    forall b | 0 <= b < |batches'| ensures DistinctIds(batches'[b].docs) {
      RegisteringMovesNoDocs(chain, r, step, b);
    }
    forall doc | K.Given(cache, REGISTRAR, doc) ensures exists b :: Holds(batches', b, doc) {
      var b :| Holds(r.batches, b, doc);
      RegisteringMovesNoDocs(chain, r, step, b);
      assert Holds(batches', b, doc);
    }
  }

  lemma RegistrarTakeKeepsInv(c: Config, s: State, b: nat)
    requires Inv(c, s) && Enabled(c, s, RegistrarTake(b))
    ensures Inv(c, Apply(c, s, RegistrarTake(b)))
  {
    var topic := s.registrar.batches[b].topic;
    var doc, take := Offered(s, REGISTRAR, topic), K.Take(REGISTRAR, topic);
    K.OfferedIsNew(c.Limits(), s.cache, REGISTRAR, topic);
    K.StepKeepsInv(c.Limits(), s.cache, take);
    CacheStepKeepsFeeds(c.Limits(), s.cache, take, s.persister, s.registrar.batches);
    TakeGivesOne(c.Limits(), s.cache, topic);
    CollectKeepsAccounted(c.Limits(), s.cache, K.Apply(c.Limits(), s.cache, take), s.registrar.batches, b, doc);
    CollectKeepsBatches(s.cache, K.Apply(c.Limits(), s.cache, take), s.registrar.batches, b, doc);
    R.StepKeepsInv(c.chain, s.registrar, R.Collect(b, doc));
    RegistrarStepKeepsProofs(c.chain, s.registrar, R.Collect(b, doc), s.rows);
  }

  lemma UpdateDigestKeepsInv(c: Config, s: State, j: nat, ok: bool)
    requires Inv(c, s) && Enabled(c, s, UpdateDigest(j, ok))
    ensures Inv(c, Apply(c, s, UpdateDigest(j, ok)))
  {
    R.StepKeepsInv(c.chain, s.registrar, R.Update(j, ok));
    if ok {
      var done := s.registrar.completions[j];
      var s' := Apply(c, s, UpdateDigest(j, ok));
      UpdateKeepsProofs(c, s, j, s'.registrar, s'.rows);
      UpdateKeepsBodies(s.persister, IdsOf(done.docs), ProofOf(done), s.rows);
    } else {
      RegistrarStepKeepsProofs(c.chain, s.registrar, R.Update(j, ok), s.rows);
    }
  }

  lemma SignKeepsInv(c: Config, s: State, id: string, sign: string)
    requires Inv(c, s) && Enabled(c, s, Sign(id, sign))
    ensures Inv(c, Apply(c, s, Sign(id, sign)))
  {
    var rows' := Cassandra.Apply(s.rows, SetSign(id, sign));
    assert forall i :: RowAt(rows', i).body == RowAt(s.rows, i).body && RowAt(rows', i).proof == RowAt(s.rows, i).proof;
  }

  lemma StepKeepsInv(c: Config, s: State, l: Label)
    requires Inv(c, s) && Enabled(c, s, l)
    ensures Inv(c, Apply(c, s, l))
  {
    match l
    case Cache(step) =>
      K.StepKeepsInv(c.Limits(), s.cache, step);
      CacheStepKeepsFeeds(c.Limits(), s.cache, step, s.persister, s.registrar.batches);
      CacheStepKeepsAccounted(c.Limits(), s.cache, step, s.registrar.batches);
    case Persist(step) => PersistKeepsInv(c, s, step);
    case PersisterTake(g) => PersisterTakeKeepsInv(c, s, g);
    case PersisterWrite(i, ok) => PersisterWriteKeepsInv(c, s, i, ok);
    case Registering(step) => RegisteringKeepsInv(c, s, step);
    case RegistrarTake(b) => RegistrarTakeKeepsInv(c, s, b);
    case UpdateDigest(j, ok) => UpdateDigestKeepsInv(c, s, j, ok);
    case Sign(id, sign) => SignKeepsInv(c, s, id, sign);
  }

  /** What the registrar sees of a step is one of its own steps or nothing. */
  lemma RegistrarAfter(c: Config, s: State, l: Label)
    requires Enabled(c, s, l)
    ensures match RegistrarStep(c, s, l)
            case Some(step) =>
              R.Enabled(c.chain, s.registrar, step) && Apply(c, s, l).registrar == R.Apply(c.chain, s.registrar, step)
            case None => Apply(c, s, l).registrar == s.registrar
  {
  }

  lemma {:induction false} StepsKeepInv(c: Config, states: seq<State>, labels: seq<Label>, n: nat)
    requires Steps(c, states, labels) && Inv(c, states[0]) && n <= |labels|
    ensures Inv(c, states[n])
  {
    if n > 0 {
      StepsKeepInv(c, states, labels, n - 1);
      StepKeepsInv(c, states[n-1], labels[n-1]);
    }
  }

  lemma RunKeepsInv(c: Config, states: seq<State>, labels: seq<Label>, n: nat)
    requires IsRun(c, states, labels) && n <= |labels|
    ensures Inv(c, states[n])
  {
    StepsKeepInv(c, states, labels, n);
  }

  lemma ReachableInv(c: Config, s: State)
    requires Reachable(c, s)
    ensures Inv(c, s)
  {
    var states, labels :| IsRun(c, states, labels) && states[|labels|] == s;
    RunKeepsInv(c, states, labels, |labels|);
  }
}
