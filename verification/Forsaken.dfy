/** Documents that never reach the table, and what that means for the batches they are in: those logged before the
persister subscribed, which it does only when it first fetches, and those whose write failed. */
module Forsaken {
  import opened Documents
  import opened Merkle
  import opened Proofs
  import opened Cassandra
  import opened Blockchain
  import opened System
  import opened EndToEnd
  import K = Kafka
  import P = Persister
  import R = Registrar

  // ---------------------------------------------------------------- what the persister fetches

  /** The persister has fetched what the cache gave it, each document once. */
  ghost predicate FetchedInv(cache: K.State, fetched: seq<Document>) {
    && (forall doc :: doc in fetched <==> K.Given(cache, PERSISTER, doc))
    && DistinctIds(fetched)
  }

  lemma CacheStepKeepsFetched(limits: K.Limits, cache: K.State, step: K.Label, fetched: seq<Document>)
    requires K.Inv(limits, cache) && K.Enabled(limits, cache, step) && FetchedInv(cache, fetched)
    requires step.Take? ==> step.name != PERSISTER
    ensures FetchedInv(K.Apply(limits, cache, step), fetched)
  {
    forall doc ensures doc in fetched <==> K.Given(K.Apply(limits, cache, step), PERSISTER, doc) {
      if doc in fetched {
        K.GivenStays(limits, cache, step, PERSISTER, doc);
      } else if K.Given(K.Apply(limits, cache, step), PERSISTER, doc) {
        K.NewlyGiven(limits, cache, step, PERSISTER, doc);
      }
    }
  }

  lemma GivenAfterTake(limits: K.Limits, cache: K.State, topic: string, doc: Document)
    requires K.Inv(limits, cache) && K.CanTake(cache, PERSISTER, topic)
    requires K.Enabled(limits, cache, K.Take(PERSISTER, topic))
    ensures K.Given(K.Apply(limits, cache, K.Take(PERSISTER, topic)), PERSISTER, doc)
       <==> K.Given(cache, PERSISTER, doc) || doc == K.LaneOf(cache, PERSISTER, topic).chan[0]
  {
    var take := K.Take(PERSISTER, topic);
    if K.Given(cache, PERSISTER, doc) {
      K.GivenStays(limits, cache, take, PERSISTER, doc);
    } else if K.Given(K.Apply(limits, cache, take), PERSISTER, doc) {
      K.NewlyGiven(limits, cache, take, PERSISTER, doc);
    } else {
      K.OfferedIsNew(limits, cache, PERSISTER, topic);
    }
  }

  lemma DifferentIds(cache: K.State, a: Document, b: Document)
    requires K.Logged(cache, a) && K.Logged(cache, b) && a != b
    ensures a.id != b.id
  {
  }

  lemma FetchedIsNew(cache: K.State, fetched: seq<Document>, doc: Document)
    requires FetchedInv(cache, fetched) && K.Logged(cache, doc) && !K.Given(cache, PERSISTER, doc)
    ensures DistinctIds(fetched + [doc])
  {
    forall i | 0 <= i < |fetched| ensures fetched[i].id != doc.id {
      assert K.Given(cache, PERSISTER, fetched[i]);
      DifferentIds(cache, fetched[i], doc);
    }
  }

  lemma FetchedOneMore(before: K.State, after: K.State, fetched: seq<Document>, doc: Document)
    requires FetchedInv(before, fetched) && DistinctIds(fetched + [doc])
    requires forall d :: K.Given(after, PERSISTER, d) <==> K.Given(before, PERSISTER, d) || d == doc
    ensures FetchedInv(after, fetched + [doc])
  {
    assert forall d :: d in fetched + [doc] <==> d in fetched || d == doc;
  }

  lemma FetchKeepsFetched(limits: K.Limits, cache: K.State, topic: string, fetched: seq<Document>)
    requires K.Inv(limits, cache) && K.CanTake(cache, PERSISTER, topic) && FetchedInv(cache, fetched)
    requires K.Enabled(limits, cache, K.Take(PERSISTER, topic))
    ensures FetchedInv(K.Apply(limits, cache, K.Take(PERSISTER, topic)),
                       fetched + [K.LaneOf(cache, PERSISTER, topic).chan[0]])
  {
    var after, doc := K.Apply(limits, cache, K.Take(PERSISTER, topic)), K.LaneOf(cache, PERSISTER, topic).chan[0];
    K.OfferedIsNew(limits, cache, PERSISTER, topic);
    FetchedIsNew(cache, fetched, doc);
    forall d ensures K.Given(after, PERSISTER, d) <==> K.Given(cache, PERSISTER, d) || d == doc {
      GivenAfterTake(limits, cache, topic, d);
    }
    FetchedOneMore(cache, after, fetched, doc);
  }

  lemma FetchedAfterTake(c: Config, s: State, g: nat)
    requires Enabled(c, s, PersisterTake(g))
    ensures var topic, s' := s.persister.getters[g].topic, System.Apply(c, s, PersisterTake(g));
            && K.Enabled(c.Limits(), s.cache, K.Take(PERSISTER, topic))
            && s'.cache == K.Apply(c.Limits(), s.cache, K.Take(PERSISTER, topic))
            && s'.persister.fetched == s.persister.fetched + [Offered(s, PERSISTER, topic)]
  {
  }

  lemma PersisterTakeKeepsFetched(c: Config, s: State, g: nat)
    requires Inv(c, s) && FetchedInv(s.cache, s.persister.fetched) && Enabled(c, s, PersisterTake(g))
    ensures var s' := System.Apply(c, s, PersisterTake(g)); FetchedInv(s'.cache, s'.persister.fetched)
  {
    var topic := s.persister.getters[g].topic;
    FetchedAfterTake(c, s, g);
    FetchKeepsFetched(c.Limits(), s.cache, topic, s.persister.fetched);
  }

  lemma RegistrarTakeKeepsFetched(c: Config, s: State, b: nat)
    requires Inv(c, s) && FetchedInv(s.cache, s.persister.fetched) && Enabled(c, s, RegistrarTake(b))
    ensures var s' := System.Apply(c, s, RegistrarTake(b)); FetchedInv(s'.cache, s'.persister.fetched)
  {
    var topic := s.registrar.batches[b].topic;
    assert |PERSISTER| != |REGISTRAR|;
    K.OfferedIsNew(c.Limits(), s.cache, REGISTRAR, topic);
    CacheStepKeepsFetched(c.Limits(), s.cache, K.Take(REGISTRAR, topic), s.persister.fetched);
  }

  lemma OtherStepFetchesNothing(c: Config, s: State, l: Label)
    requires Enabled(c, s, l) && !l.Cache? && !l.PersisterTake? && !l.RegistrarTake?
    ensures System.Apply(c, s, l).cache == s.cache && System.Apply(c, s, l).persister.fetched == s.persister.fetched
  {
    if l.Persist? { P.NeitherFetchedNorWritten(c.persist, s.persister, l.persist); }
  }

  lemma StepKeepsFetched(c: Config, s: State, l: Label)
    requires Inv(c, s) && FetchedInv(s.cache, s.persister.fetched) && Enabled(c, s, l)
    ensures FetchedInv(System.Apply(c, s, l).cache, System.Apply(c, s, l).persister.fetched)
  {
    if l.Cache? {
      CacheStepKeepsFetched(c.Limits(), s.cache, l.cache, s.persister.fetched);
    } else if l.PersisterTake? {
      PersisterTakeKeepsFetched(c, s, l.getter);
    } else if l.RegistrarTake? {
      RegistrarTakeKeepsFetched(c, s, l.batch);
    } else {
      OtherStepFetchesNothing(c, s, l);
    }
  }

  // ---------------------------------------------------------------- forsaken documents

  /** The document's write has failed, or the persister subscribed too late for it. */
  ghost predicate IsForsaken(s: State, doc: Document) {
    doc in s.persister.failed || K.Skipped(s.cache, PERSISTER, doc)
  }

  lemma CacheAfter(c: Config, s: State, l: Label, doc: Document)
    requires Enabled(c, s, l) && K.Skipped(s.cache, PERSISTER, doc)
    ensures K.Skipped(System.Apply(c, s, l).cache, PERSISTER, doc)
  {
    match l
    case Cache(step) => K.SkippedStays(c.Limits(), s.cache, step, PERSISTER, doc);
    case PersisterTake(g) =>
      K.SkippedStays(c.Limits(), s.cache, K.Take(PERSISTER, s.persister.getters[g].topic), PERSISTER, doc);
    case RegistrarTake(b) =>
      K.SkippedStays(c.Limits(), s.cache, K.Take(REGISTRAR, s.registrar.batches[b].topic), PERSISTER, doc);
    case _ =>
  }

  lemma FailedStays(cfg: P.Config, p: P.State, l: P.Label, doc: Document)
    requires P.Enabled(cfg, p, l) && doc in p.failed
    ensures doc in P.Apply(cfg, p, l).failed
  {
  }

  lemma ForsakenStays(c: Config, s: State, l: Label, doc: Document)
    requires Enabled(c, s, l) && IsForsaken(s, doc)
    ensures IsForsaken(System.Apply(c, s, l), doc)
  {
    if K.Skipped(s.cache, PERSISTER, doc) {
      CacheAfter(c, s, l, doc);
    } else {
      match l
      case Persist(step) => FailedStays(c.persist, s.persister, step, doc);
      case PersisterTake(g) =>
        FailedStays(c.persist, s.persister, P.Take(g, Offered(s, PERSISTER, s.persister.getters[g].topic)), doc);
      case PersisterWrite(i, ok) => FailedStays(c.persist, s.persister, P.Finish(i, ok), doc);
      case _ =>
    }
  }

  lemma CountOnce(docs: seq<Document>, doc: Document)
    requires DistinctIds(docs)
    ensures multiset(docs)[doc] <= 1
  {
    if docs != [] {
      var init, last := docs[..|docs|-1], docs[|docs|-1];
      CountOnce(init, doc);
      assert docs == init + [last];
      if last == doc {
        forall i | 0 <= i < |init| ensures init[i] != doc { assert docs[i].id != last.id; }
        assert doc !in init;
      }
    }
  }

  lemma NotBothSettled(p: P.State, doc: Document)
    requires P.Conserved(p) && DistinctIds(p.fetched)
    ensures !(doc in p.written && doc in p.failed)
  {
    CountOnce(p.fetched, doc);
    assert multiset(p.fetched)[doc] >= multiset(p.written)[doc] + multiset(p.failed)[doc];
  }

  /** A forsaken document is not in the table. */
  lemma ForsakenIsMissing(c: Config, s: State, doc: Document)
    requires Inv(c, s) && FetchedInv(s.cache, s.persister.fetched) && K.Logged(s.cache, doc) && IsForsaken(s, doc)
    ensures !Inserted(s, doc.id)
  {
    if Inserted(s, doc.id) {
      var w :| w in s.persister.written && w.id == doc.id;
      WrittenIsFetched(s.persister, w);
      assert K.Given(s.cache, PERSISTER, w);
      OneDocumentPerId(s.cache, w, doc);
      NotBothSettled(s.persister, doc);
    }
  }

  // ---------------------------------------------------------------- runs

  ghost predicate Kept(c: Config, s: State) {
    Inv(c, s) && FetchedInv(s.cache, s.persister.fetched)
  }

  lemma {:induction false} StepsKeep(c: Config, states: seq<State>, labels: seq<Label>, n: nat)
    requires Steps(c, states, labels) && Kept(c, states[0]) && n <= |labels|
    ensures Kept(c, states[n])
  {
    if n > 0 {
      StepsKeep(c, states, labels, n - 1);
      StepKeepsFetched(c, states[n-1], labels[n-1]);
      StepKeepsInv(c, states[n-1], labels[n-1]);
    }
  }

  lemma ReachableKept(c: Config, s: State)
    requires Reachable(c, s)
    ensures Kept(c, s)
  {
    var states, labels :| IsRun(c, states, labels) && states[|labels|] == s;
    RunKeepsInv(c, states, labels, 0);
    StepsKeep(c, states, labels, |labels|);
  }

  lemma {:induction false} ForsakenForGood(c: Config, states: seq<State>, labels: seq<Label>, n: nat, doc: Document)
    requires Steps(c, states, labels) && n <= |labels| && IsForsaken(states[0], doc)
    ensures IsForsaken(states[n], doc)
  {
    if n > 0 {
      ForsakenForGood(c, states, labels, n - 1, doc);
      ForsakenStays(c, states[n-1], labels[n-1], doc);
    }
  }

  lemma InBatchIsLogged(c: Config, s: State, txid: string, doc: Document)
    requires Inv(c, s) && doc in R.DocsOf(s.registrar, txid)
    ensures K.Given(s.cache, REGISTRAR, doc) && K.Logged(s.cache, doc)
  {
    assert Holds(s.registrar.batches, s.registrar.accepted[txid], doc);
  }

  /** A batch with a forsaken document verifies in no continuation. */
  lemma NeverVerifies(c: Config, h: Hashes, states: seq<State>, labels: seq<Label>, n: nat, doc: Document,
                      txid: string, digest: string, found: seq<Document>)
    requires Steps(c, states, labels) && Reachable(c, states[0]) && n <= |labels| && IsForsaken(states[0], doc)
    requires Unclashed(c, h, states[n]) && SeparatedFromSent(h.sha256, states[n].registrar, found)
    requires txid in states[n].registrar.applied && R.Answered(c.chain, states[n].registrar, txid, digest)
    requires FoundBy(states[n], digest, found) && doc in R.DocsOf(states[n].registrar, txid)
    ensures RootOf(h.sha256, found) !in states[n].registrar.registered
  {
    ReachableKept(c, states[0]);
    StepsKeep(c, states, labels, n);
    ForsakenForGood(c, states, labels, n, doc);
    InBatchIsLogged(c, states[n], txid, doc);
    ForsakenIsMissing(c, states[n], doc);
    MissingIsNotRegistered(c, h, states[n], txid, digest, found, doc);
  }

  // ---------------------------------------------------------------- when all is quiet

  /** The persister has been given all that was logged since it subscribed, and has settled it. */
  ghost predicate Quiet(c: Config, s: State) {
    && P.Drained(s.persister)
    && forall topic :: topic in c.Limits() ==>
         && K.HasLane(s.cache, PERSISTER, topic)
         && K.Place(K.LaneOf(s.cache, PERSISTER, topic)) == |K.Log(s.cache.logs, topic)|
  }

  lemma DrainedIsSettled(p: P.State)
    requires P.Conserved(p) && P.Drained(p)
    ensures multiset(p.fetched) == P.Settled(p)
  {
    P.NothingHeld(p.getters);
  }

  lemma SettledIsEither(p: P.State, doc: Document)
    requires multiset(p.fetched) == P.Settled(p) && doc in p.fetched
    ensures doc in p.written || doc in p.failed
  {
    assert doc in multiset(p.fetched);
  }

  lemma GivenOrSkipped(c: Config, s: State, doc: Document)
    requires Inv(c, s) && Quiet(c, s) && K.Given(s.cache, REGISTRAR, doc)
    ensures K.Given(s.cache, PERSISTER, doc) || K.Skipped(s.cache, PERSISTER, doc)
  {
    var (topic, i) := s.cache.places[doc.id];
    K.LaneOfInv(c.Limits(), s.cache, REGISTRAR, topic);
  }

  lemma InsertedWhenQuiet(c: Config, s: State, txid: string, doc: Document)
    requires Kept(c, s) && Quiet(c, s) && doc in R.DocsOf(s.registrar, txid)
    ensures Inserted(s, doc.id) <==> !IsForsaken(s, doc)
  {
    InBatchIsLogged(c, s, txid, doc);
    if IsForsaken(s, doc) {
      ForsakenIsMissing(c, s, doc);
    } else {
      GivenOrSkipped(c, s, doc);
      DrainedIsSettled(s.persister);
      SettledIsEither(s.persister, doc);
    }
  }

  lemma StoredIsSent(c: Config, s: State, txid: string, digest: string)
    requires Inv(c, s) && R.Answered(c.chain, s.registrar, txid, digest)
    ensures R.IsSent(s.registrar, s.registrar.accepted[txid])
  {
    assert R.IsTxOf(s.registrar, txid, s.registrar.accepted[txid]);
  }

  /** Once the persister is quiet, a batch with its digest in the table verifies exactly if none of its documents was
      forsaken: nothing else can make verification fail. */
  lemma VerifiesWhenNoneForsaken(c: Config, h: Hashes, s: State, txid: string, digest: string, found: seq<Document>)
    requires Reachable(c, s) && Unclashed(c, h, s) && Quiet(c, s)
    requires txid in s.registrar.applied && R.Answered(c.chain, s.registrar, txid, digest)
    requires FoundBy(s, digest, found) && SeparatedFromSent(h.sha256, s.registrar, found)
    ensures RootOf(h.sha256, found) in s.registrar.registered
       <==> forall doc :: doc in R.DocsOf(s.registrar, txid) ==> !IsForsaken(s, doc)
  {
    ReachableKept(c, s);
    forall doc | doc in R.DocsOf(s.registrar, txid) ensures Inserted(s, doc.id) <==> !IsForsaken(s, doc) {
      InsertedWhenQuiet(c, s, txid, doc);
    }
    StoredIsSent(c, s, txid, digest);
    VerificationAgrees(c, h, s, txid, digest, found);
  }
}
