/** The registrar as goroutines that interleave: one per topic that collects and registers batches,
and one per chain event that completes a batch. Each label is an atomic step of one of them. */
module Registrar {
  import opened Wrappers
  import opened Documents
  import opened Proofs
  import opened Blockchain

  /** The root of a batch, the digest made of a proof hash, and what the chain's event for a transaction reports;
      None where it cannot be parsed. Events for one transaction all report the same. */
  datatype Chain = Chain(root: seq<Document> -> string, proofKey: string -> string, payloads: string -> Option<Payload>)

  /** The chain as the program sees it through these hash functions. */
  ghost predicate Uses(c: Chain, h: Hashes) {
    && (forall docs :: c.root(docs) == RootOf(h.sha256, docs))
    && (forall proofHash :: c.proofKey(proofHash) == ProofKey(h, proofHash))
  }

  /** The digest that the event of `txid` gives a batch, if it is about it. */
  function DigestFor(c: Chain, docs: seq<Document>, txid: string): Option<string> {
    match c.payloads(txid)
    case None => None
    case Some(payload) =>
      var root := c.root(docs);
      if root in payload then Some(c.proofKey(payload[root])) else None
  }

  /** A batch is collected, and then either has no document, or is not accepted by the chain, or is accepted
      under a transaction id. Then it is stored, and handled by a completion or cleared by `Close`. */
  datatype Phase =
    | Collecting
    | Empty
    | InvokeFailed
    | Submitted(txid: string)
    | Pending(txid: string)
    | Handled(txid: string)
    | Cleared(txid: string)

  datatype Batch = Batch(topic: string, docs: seq<Document>, phase: Phase)

  /** A goroutine that found its batch and knows the digest. It reads the clock, updates the table, and forgets
      the batch. */
  datatype Completion = Completion(txid: string, docs: seq<Document>, digest: string, stage: Stage)

  datatype Stage =
    | BeforeStamp
    | BeforeUpdate(stamp: int)
    | BeforeDelete(stamp: int)
    | Done(stamp: int)

  /** `items` is what the program keeps, `clock` what the goroutines read; the rest is the history of the run: all
      batches ever begun, the transactions that were accepted and whose batch they are for, those of which an update
      reached the table and whose update was the last, and the roots registered with the chain. */
  datatype State = State(
    items: map<string, seq<Document>>,
    batches: seq<Batch>,
    completions: seq<Completion>,
    accepted: map<string, nat>,
    applied: map<string, nat>,
    registered: set<string>,
    clock: int)

  const INIT := State(map[], [], [], map[], map[], {}, 0)

  /** How a request to register ends. `Lost`: the chain has registered the root, but the reply did not come. */
  datatype Reply = Refused | Lost | Accepted(txid: string)

  datatype Label =
    | Start(topic: string)
    | Collect(batch: nat, doc: Document)
    | Register(batch: nat, reply: Reply)
    | Store(batch: nat)
    | Tick(now: int)
    | Begin(txid: string)
    | Stamp(completion: nat)
    | Update(completion: nat, ok: bool)
    | Delete(completion: nat)
    | Clear

  predicate Busy(b: Batch) {
    b.phase.Collecting? || b.phase.Submitted?
  }

  predicate Enabled(c: Chain, s: State, l: Label) {
    match l
    case Start(topic) => forall b :: 0 <= b < |s.batches| && s.batches[b].topic == topic ==> !Busy(s.batches[b])
    case Collect(b, doc) => b < |s.batches| && s.batches[b].phase.Collecting?
    case Register(b, reply) =>
      && b < |s.batches| && s.batches[b].phase.Collecting?
      && (reply.Accepted? ==> reply.txid !in s.accepted)
    case Store(b) => b < |s.batches| && s.batches[b].phase.Submitted?
    case Tick(now) => now >= s.clock
    case Begin(_) => true
    case Stamp(j) => j < |s.completions| && s.completions[j].stage.BeforeStamp?
    case Update(j, _) => j < |s.completions| && s.completions[j].stage.BeforeUpdate?
    case Delete(j) => j < |s.completions| && s.completions[j].stage.BeforeDelete?
    case Clear => true
  }

  function Apply(c: Chain, s: State, l: Label): State
    requires Enabled(c, s, l)
  {
    match l
    case Start(topic) => s.(batches := s.batches + [Batch(topic, [], Collecting)])
    case Collect(b, doc) => WithBatch(s, b, s.batches[b].(docs := s.batches[b].docs + [doc]))
    case Register(b, reply) => Registered(c, s, b, reply)
    case Store(b) =>
      var batch := s.batches[b];
      WithBatch(s, b, batch.(phase := Pending(batch.phase.txid))).(items := s.items[batch.phase.txid := batch.docs])
    case Tick(now) => s.(clock := now)
    case Begin(txid) =>
      if CanComplete(c, s, txid) then
        var docs := s.items[txid];
        var digest := DigestFor(c, docs, txid).value;
        s.(completions := s.completions + [Completion(txid, docs, digest, BeforeStamp)])
      else s
    case Stamp(j) => s.(completions := s.completions[j := s.completions[j].(stage := BeforeUpdate(s.clock))])
    case Update(j, ok) =>
      var done := s.completions[j];
      s.(completions := s.completions[j := done.(stage := BeforeDelete(done.stage.stamp))],
         applied := if ok then s.applied[done.txid := j] else s.applied)
    case Delete(j) =>
      var done := s.completions[j];
      SettleAll(s, s.items - {done.txid}, txid => if txid == done.txid then Handled(txid) else Pending(txid))
        .(completions := s.completions[j := done.(stage := Done(done.stage.stamp))])
    case Clear => SettleAll(s, map[], txid => Cleared(txid))
  }

  function WithBatch(s: State, b: nat, batch: Batch): State
    requires b < |s.batches|
  {
    s.(batches := s.batches[b := batch])
  }

  function Registered(c: Chain, s: State, b: nat, reply: Reply): State
    requires b < |s.batches|
  {
    var batch, root := s.batches[b], c.root(s.batches[b].docs);
    if batch.docs == [] then WithBatch(s, b, batch.(phase := Empty))
    else match reply
      case Refused => WithBatch(s, b, batch.(phase := InvokeFailed))
      case Lost => WithBatch(s, b, batch.(phase := InvokeFailed)).(registered := s.registered + {root})
      case Accepted(txid) =>
        WithBatch(s, b, batch.(phase := Submitted(txid)))
          .(accepted := s.accepted[txid := b], registered := s.registered + {root})
  }

  /** The event's batch is stored, and the event reports on it. */
  predicate CanComplete(c: Chain, s: State, txid: string) {
    txid in s.items && DigestFor(c, s.items[txid], txid).Some?
  }

  /** New items; the phase of each pending batch moves with them. */
  function SettleAll(s: State, items: map<string, seq<Document>>, phase: string -> Phase): State {
    s.(items := items,
       batches := seq(|s.batches|, b requires 0 <= b < |s.batches| =>
         if s.batches[b].phase.Pending? then s.batches[b].(phase := phase(s.batches[b].phase.txid)) else s.batches[b]))
  }

  // ---------------------------------------------------------------- what every run keeps

  function TxOf(phase: Phase): Option<string> {
    match phase
    case Submitted(txid) => Some(txid)
    case Pending(txid) => Some(txid)
    case Handled(txid) => Some(txid)
    case Cleared(txid) => Some(txid)
    case _ => None
  }

  predicate Stored(phase: Phase) {
    phase.Pending? || phase.Handled? || phase.Cleared?
  }

  /** `txid` was accepted for batch `b`. */
  predicate IsTxOf(s: State, txid: string, b: int) {
    0 <= b < |s.batches| && TxOf(s.batches[b].phase) == Some(txid)
  }

  function DocsOf(s: State, txid: string): seq<Document> {
    if txid in s.accepted && s.accepted[txid] < |s.batches| then s.batches[s.accepted[txid]].docs else []
  }

  ghost predicate AcceptedInv(c: Chain, s: State) {
    && (forall txid :: txid in s.accepted ==> IsTxOf(s, txid, s.accepted[txid]))
    && (forall b, txid :: IsTxOf(s, txid, b) ==>
          && txid in s.accepted && s.accepted[txid] == b
          && s.batches[b].docs != [] && c.root(s.batches[b].docs) in s.registered)
  }

  ghost predicate ItemsInv(s: State) {
    && (forall txid :: txid in s.items ==>
          txid in s.accepted && s.accepted[txid] < |s.batches|
          && s.batches[s.accepted[txid]] == Batch(s.batches[s.accepted[txid]].topic, s.items[txid], Pending(txid)))
    && (forall b :: 0 <= b < |s.batches| && s.batches[b].phase.Pending? ==> s.batches[b].phase.txid in s.items)
  }

  /** `digest` is what the batch of `txid` gets from the chain, and the batch has been stored. */
  ghost predicate Answered(c: Chain, s: State, txid: string, digest: string) {
    && txid in s.accepted && s.accepted[txid] < |s.batches| && Stored(s.batches[s.accepted[txid]].phase)
    && DigestFor(c, DocsOf(s, txid), txid) == Some(digest)
  }

  ghost predicate CompletionsInv(c: Chain, s: State) {
    && (forall j :: 0 <= j < |s.completions| ==>
          && Answered(c, s, s.completions[j].txid, s.completions[j].digest)
          && s.completions[j].docs == DocsOf(s, s.completions[j].txid))
    && forall txid :: txid in s.applied ==> exists digest :: Answered(c, s, txid, digest)
  }

  /** Completion j has updated the table, or tried to. */
  predicate IsUpdated(s: State, j: int) {
    0 <= j < |s.completions| && (s.completions[j].stage.BeforeDelete? || s.completions[j].stage.Done?)
  }

  /** The last update of a transaction is one of its completions. */
  predicate IsLastUpdate(s: State, txid: string, j: int) {
    IsUpdated(s, j) && s.completions[j].txid == txid
  }

  /** No stamp is ahead of the clock, and a batch whose completion is done is not kept. */
  ghost predicate StagesInv(s: State) {
    && (forall j :: 0 <= j < |s.completions| && !s.completions[j].stage.BeforeStamp? ==>
          s.completions[j].stage.stamp <= s.clock)
    && (forall j :: 0 <= j < |s.completions| && s.completions[j].stage.Done? ==> s.completions[j].txid !in s.items)
    && (forall txid :: txid in s.applied ==> IsLastUpdate(s, txid, s.applied[txid]))
  }

  /** The batch is one that the chain was asked to register. */
  predicate IsSent(s: State, b: int) {
    0 <= b < |s.batches| && s.batches[b].docs != [] && !s.batches[b].phase.Collecting?
  }

  /** What is registered is the root of a batch, whether or not the reply came. */
  ghost predicate RegisteredInv(c: Chain, s: State) {
    forall root :: root in s.registered ==> exists b :: IsSent(s, b) && c.root(s.batches[b].docs) == root
  }

  ghost predicate Inv(c: Chain, s: State) {
    AcceptedInv(c, s) && ItemsInv(s) && CompletionsInv(c, s) && StagesInv(s) && RegisteredInv(c, s)
  }

  /** How a batch's phase can change: a batch that is handled, cleared or failed stays so. */
  predicate Becomes(p: Phase, p': Phase) {
    || p' == p
    || p.Collecting?
    || (p.Submitted? && (p' == Pending(p.txid) || p' == Handled(p.txid) || p' == Cleared(p.txid)))
    || (p.Pending? && (p' == Handled(p.txid) || p' == Cleared(p.txid)))
  }

  /** `s'` has all batches of `s`, perhaps in later phases, and unchanged but for those still being collected. */
  ghost predicate Grows(s: State, s': State) {
    && |s.batches| <= |s'.batches|
    && (forall txid :: txid in s.accepted ==> txid in s'.accepted && s'.accepted[txid] == s.accepted[txid])
    && (forall b :: 0 <= b < |s.batches| ==>
          && s'.batches[b].topic == s.batches[b].topic
          && (!s.batches[b].phase.Collecting? ==> s'.batches[b].docs == s.batches[b].docs)
          && Becomes(s.batches[b].phase, s'.batches[b].phase))
    && s.registered <= s'.registered && s.applied.Keys <= s'.applied.Keys && s.clock <= s'.clock
  }

  /** Steps on one batch. */
  predicate OnBatch(l: Label) {
    l.Collect? || l.Register? || l.Store?
  }

  /** Steps that end the wait of pending batches. */
  predicate OnPending(l: Label) {
    l.Delete? || l.Clear?
  }

  lemma OneBatchGrows(s: State, s': State, b: nat)
    requires b < |s.batches| && |s'.batches| == |s.batches| && s'.batches == s.batches[b := s'.batches[b]]
    requires s'.batches[b].topic == s.batches[b].topic && Becomes(s.batches[b].phase, s'.batches[b].phase)
    requires !s.batches[b].phase.Collecting? ==> s'.batches[b].docs == s.batches[b].docs
    requires forall txid :: txid in s.accepted ==> txid in s'.accepted && s'.accepted[txid] == s.accepted[txid]
    requires s.registered <= s'.registered && s'.applied == s.applied && s'.clock == s.clock
    ensures Grows(s, s')
  {
  }

  lemma RegisterGrows(c: Chain, s: State, b: nat, reply: Reply)
    requires Enabled(c, s, Register(b, reply))
    ensures Grows(s, Registered(c, s, b, reply))
  {
    var s' := Registered(c, s, b, reply);
    assert s'.batches == s.batches[b := s'.batches[b]];
    OneBatchGrows(s, s', b);
  }

  lemma BatchStepGrows(c: Chain, s: State, l: Label)
    requires Enabled(c, s, l) && OnBatch(l)
    ensures Grows(s, Apply(c, s, l))
  {
    if l.Register? {
      RegisterGrows(c, s, l.batch, l.reply);
    } else {
      OneBatchGrows(s, Apply(c, s, l), l.batch);
    }
  }

  lemma PendingStepGrows(c: Chain, s: State, l: Label)
    requires Enabled(c, s, l) && OnPending(l)
    ensures Grows(s, Apply(c, s, l))
  {
  }

  lemma StepGrows(c: Chain, s: State, l: Label)
    requires Enabled(c, s, l)
    ensures Grows(s, Apply(c, s, l))
  {
    if OnBatch(l) {
      BatchStepGrows(c, s, l);
    } else if OnPending(l) {
      PendingStepGrows(c, s, l);
    }
  }

  lemma GrowsOn(s: State, s': State, s'': State)
    requires Grows(s, s') && Grows(s', s'')
    ensures Grows(s, s'')
  {
  }

  lemma OnlyUpdateApplies(c: Chain, s: State, l: Label)
    requires Enabled(c, s, l) && !(l.Update? && l.ok)
    ensures Apply(c, s, l).applied == s.applied
  {
  }

  lemma AnsweredGrows(c: Chain, s: State, s': State, txid: string, digest: string)
    requires Grows(s, s') && AcceptedInv(c, s) && Answered(c, s, txid, digest)
    ensures Answered(c, s', txid, digest) && DocsOf(s', txid) == DocsOf(s, txid)
  {
    assert IsTxOf(s, txid, s.accepted[txid]);
  }

  /** Where a transaction id of the new state comes from. */
  lemma TxAfter(c: Chain, s: State, l: Label, txid: string, b: int)
    requires AcceptedInv(c, s) && Enabled(c, s, l) && IsTxOf(Apply(c, s, l), txid, b)
    ensures IsTxOf(s, txid, b) || (l == Register(b, Accepted(txid)) && s.batches[b].docs != [])
  {
  }

  lemma StepKeepsAccepted(c: Chain, s: State, l: Label)
    requires AcceptedInv(c, s) && Enabled(c, s, l)
    ensures AcceptedInv(c, Apply(c, s, l))
  {
    var s' := Apply(c, s, l);
    StepGrows(c, s, l);
    forall b, txid | IsTxOf(s', txid, b)
      ensures && txid in s'.accepted && s'.accepted[txid] == b && s'.batches[b].docs != []
              && c.root(s'.batches[b].docs) in s'.registered
    {
      TxAfter(c, s, l, txid, b);
    }
    forall txid | txid in s'.accepted ensures IsTxOf(s', txid, s'.accepted[txid]) {
      AcceptedAfter(c, s, l, txid);
    }
  }

  lemma AcceptedAfter(c: Chain, s: State, l: Label, txid: string)
    requires AcceptedInv(c, s) && Enabled(c, s, l) && txid in Apply(c, s, l).accepted
    ensures IsTxOf(Apply(c, s, l), txid, Apply(c, s, l).accepted[txid])
  {
    if txid in s.accepted {
      StepGrows(c, s, l);
      AcceptedGrows(c, s, Apply(c, s, l), txid);
    } else {
      NewlyAccepted(c, s, l, txid);
    }
  }

  lemma AcceptedGrows(c: Chain, s: State, s': State, txid: string)
    requires AcceptedInv(c, s) && Grows(s, s') && txid in s.accepted
    ensures txid in s'.accepted && IsTxOf(s', txid, s'.accepted[txid])
  {
    assert IsTxOf(s, txid, s.accepted[txid]);
  }

  lemma NewlyAccepted(c: Chain, s: State, l: Label, txid: string)
    requires Enabled(c, s, l) && txid !in s.accepted && txid in Apply(c, s, l).accepted
    ensures IsTxOf(Apply(c, s, l), txid, Apply(c, s, l).accepted[txid])
  {
  }

  lemma StoredKeepsItems(s: State, s': State, b: nat, txid: string)
    requires ItemsInv(s) && b < |s.batches| && !s.batches[b].phase.Pending? && s'.accepted == s.accepted
    requires txid in s.accepted && s.accepted[txid] == b && s'.items == s.items[txid := s.batches[b].docs]
    requires s'.batches == s.batches[b := s.batches[b].(phase := Pending(txid))]
    ensures ItemsInv(s')
  {
  }

  lemma StoreKeepsItems(c: Chain, s: State, b: nat)
    requires AcceptedInv(c, s) && ItemsInv(s) && Enabled(c, s, Store(b))
    ensures ItemsInv(Apply(c, s, Store(b)))
  {
    assert IsTxOf(s, s.batches[b].phase.txid, b);
    StoredKeepsItems(s, Apply(c, s, Store(b)), b, s.batches[b].phase.txid);
  }

  /** A batch that is not yet stored changes to another that is not. */
  lemma UnstoredKeepsItems(s: State, s': State, b: nat)
    requires ItemsInv(s) && b < |s.batches| == |s'.batches| && s'.items == s.items
    requires s'.batches == s.batches[b := s'.batches[b]]
    requires !s.batches[b].phase.Pending? && !s'.batches[b].phase.Pending?
    requires forall txid :: txid in s.accepted ==> txid in s'.accepted && s'.accepted[txid] == s.accepted[txid]
    ensures ItemsInv(s')
  {
  }

  lemma CollectKeepsItems(c: Chain, s: State, b: nat, doc: Document)
    requires ItemsInv(s) && Enabled(c, s, Collect(b, doc))
    ensures ItemsInv(Apply(c, s, Collect(b, doc)))
  {
    UnstoredKeepsItems(s, Apply(c, s, Collect(b, doc)), b);
  }

  lemma RegisterKeepsItems(c: Chain, s: State, b: nat, reply: Reply)
    requires ItemsInv(s) && Enabled(c, s, Register(b, reply))
    ensures ItemsInv(Registered(c, s, b, reply))
  {
    var s' := Registered(c, s, b, reply);
    assert s'.batches == s.batches[b := s'.batches[b]];
    UnstoredKeepsItems(s, s', b);
  }

  lemma BatchStepKeepsItems(c: Chain, s: State, l: Label)
    requires AcceptedInv(c, s) && ItemsInv(s) && Enabled(c, s, l) && OnBatch(l)
    ensures ItemsInv(Apply(c, s, l))
  {
    if l.Collect? {
      CollectKeepsItems(c, s, l.batch, l.doc);
    } else if l.Register? {
      RegisterKeepsItems(c, s, l.batch, l.reply);
    } else {
      StoreKeepsItems(c, s, l.batch);
    }
  }

  lemma PendingStepKeepsItems(c: Chain, s: State, l: Label)
    requires AcceptedInv(c, s) && ItemsInv(s) && Enabled(c, s, l) && OnPending(l)
    ensures ItemsInv(Apply(c, s, l))
  {
  }

  lemma StepKeepsItems(c: Chain, s: State, l: Label)
    requires AcceptedInv(c, s) && ItemsInv(s) && Enabled(c, s, l)
    ensures ItemsInv(Apply(c, s, l))
  {
    if OnBatch(l) {
      BatchStepKeepsItems(c, s, l);
    } else if OnPending(l) {
      PendingStepKeepsItems(c, s, l);
    }
  }

  lemma BeginKeepsCompletions(c: Chain, s: State, txid: string)
    requires Inv(c, s) && CanComplete(c, s, txid)
    ensures Answered(c, s, txid, DigestFor(c, s.items[txid], txid).value) && DocsOf(s, txid) == s.items[txid]
  {
  }

  /** Each completion of the new state is one of the old, perhaps a stage further, or the one begun. */
  lemma CompletionAfter(c: Chain, s: State, l: Label, j: nat)
    requires Enabled(c, s, l) && j < |Apply(c, s, l).completions|
    ensures var done := Apply(c, s, l).completions[j];
            if j < |s.completions| then done == s.completions[j].(stage := StageAfter(s, l, j))
            else l.Begin? && CanComplete(c, s, l.txid) && done.txid == l.txid && done.docs == s.items[l.txid]
                 && done.digest == DigestFor(c, s.items[l.txid], l.txid).value && done.stage.BeforeStamp?
  {
  }

  function StageAfter(s: State, l: Label, j: nat): Stage
    requires j < |s.completions|
  {
    match (s.completions[j].stage, l)
    case (BeforeStamp, Stamp(k)) => if k == j then BeforeUpdate(s.clock) else BeforeStamp
    case (BeforeUpdate(at), Update(k, _)) => if k == j then BeforeDelete(at) else BeforeUpdate(at)
    case (BeforeDelete(at), Delete(k)) => if k == j then Done(at) else BeforeDelete(at)
    case _ => s.completions[j].stage
  }

  /** How far completion j has come: begun, stamped, updated, done. */
  function Rank(s: State, j: nat): nat {
    if j >= |s.completions| then 0
    else match s.completions[j].stage
      case BeforeStamp => 1
      case BeforeUpdate(_) => 2
      case BeforeDelete(_) => 3
      case Done(_) => 4
  }

  /** The step that takes completion j to this rank. */
  predicate Raises(c: Chain, s: State, l: Label, j: nat, rank: nat) {
    match rank
    case 1 => l.Begin? && j == |s.completions| && CanComplete(c, s, l.txid)
    case 2 => l == Stamp(j)
    case 3 => l.Update? && l.completion == j
    case _ => l == Delete(j)
  }

  lemma RankAfter(c: Chain, s: State, l: Label, j: nat)
    requires Enabled(c, s, l)
    ensures var rank := Rank(Apply(c, s, l), j);
            rank == Rank(s, j) || (rank == Rank(s, j) + 1 && Raises(c, s, l, j, rank))
  {
    if j < |Apply(c, s, l).completions| { CompletionAfter(c, s, l, j); }
  }

  /** A stamp that has been written stays. */
  lemma StampStays(c: Chain, s: State, l: Label, j: nat)
    requires Enabled(c, s, l) && IsUpdated(s, j)
    ensures var s' := Apply(c, s, l);
            && IsUpdated(s', j) && s'.completions[j].stage.stamp == s.completions[j].stage.stamp
            && s'.completions[j].txid == s.completions[j].txid
  {
    CompletionsStay(c, s, l);
    CompletionAfter(c, s, l, j);
  }

  lemma CompletionsStay(c: Chain, s: State, l: Label)
    requires Enabled(c, s, l)
    ensures |s.completions| <= |Apply(c, s, l).completions|
  {
  }

  lemma StepKeepsCompletions(c: Chain, s: State, l: Label)
    requires Inv(c, s) && Enabled(c, s, l)
    ensures CompletionsInv(c, Apply(c, s, l))
  {
    var s' := Apply(c, s, l);
    StepGrows(c, s, l);
    forall j | 0 <= j < |s'.completions|
      ensures Answered(c, s', s'.completions[j].txid, s'.completions[j].digest)
           && s'.completions[j].docs == DocsOf(s', s'.completions[j].txid)
    {
      CompletionAfter(c, s, l, j);
      if j >= |s.completions| { BeginKeepsCompletions(c, s, l.txid); }
      AnsweredGrows(c, s, s', s'.completions[j].txid, s'.completions[j].digest);
    }
    forall txid | txid in s'.applied ensures exists digest :: Answered(c, s', txid, digest) {
      AppliedAfter(c, s, l, txid);
      var digest :| Answered(c, s, txid, digest);
      AnsweredGrows(c, s, s', txid, digest);
    }
  }

  lemma AppliedAfter(c: Chain, s: State, l: Label, txid: string)
    requires Enabled(c, s, l) && txid in Apply(c, s, l).applied
    ensures if l.Update? && l.ok && s.completions[l.completion].txid == txid
            then Apply(c, s, l).applied[txid] == l.completion
            else txid in s.applied && Apply(c, s, l).applied[txid] == s.applied[txid]
  {
  }

  lemma AppliedKept(c: Chain, s: State, l: Label, txid: string)
    requires Enabled(c, s, l) && txid in s.applied && !(l.Update? && l.ok && s.completions[l.completion].txid == txid)
    ensures txid in Apply(c, s, l).applied && Apply(c, s, l).applied[txid] == s.applied[txid]
  {
  }

  /** Only storing a batch adds to what is kept. */
  lemma ItemsAfter(c: Chain, s: State, l: Label, txid: string)
    requires Enabled(c, s, l) && txid in Apply(c, s, l).items
    ensures txid in s.items || (l.Store? && s.batches[l.batch].phase == Submitted(txid))
    ensures l.Delete? ==> txid != s.completions[l.completion].txid
  {
  }

  lemma StampAfter(c: Chain, s: State, l: Label, j: nat)
    requires StagesInv(s) && Enabled(c, s, l) && j < |Apply(c, s, l).completions|
    ensures !Apply(c, s, l).completions[j].stage.BeforeStamp? ==>
              Apply(c, s, l).completions[j].stage.stamp <= Apply(c, s, l).clock
  {
    CompletionAfter(c, s, l, j);
  }

  lemma DoneWhen(c: Chain, s: State, l: Label, j: nat)
    requires Enabled(c, s, l) && j < |Apply(c, s, l).completions| && Apply(c, s, l).completions[j].stage.Done?
    ensures j < |s.completions| && (s.completions[j].stage.Done? || l == Delete(j))
    ensures Apply(c, s, l).completions[j].txid == s.completions[j].txid
  {
    CompletionAfter(c, s, l, j);
  }

  lemma DoneAfter(c: Chain, s: State, l: Label, j: nat)
    requires Inv(c, s) && Enabled(c, s, l) && j < |Apply(c, s, l).completions|
    requires Apply(c, s, l).completions[j].stage.Done?
    ensures Apply(c, s, l).completions[j].txid !in Apply(c, s, l).items
  {
    DoneWhen(c, s, l, j);
    DoneStaysForgotten(c, s, l, j);
  }

  lemma LastUpdateAfter(c: Chain, s: State, l: Label, txid: string)
    requires StagesInv(s) && Enabled(c, s, l) && txid in Apply(c, s, l).applied
    ensures IsLastUpdate(Apply(c, s, l), txid, Apply(c, s, l).applied[txid])
  {
    AppliedAfter(c, s, l, txid);
    CompletionsStay(c, s, l);
    if txid in s.applied { assert IsLastUpdate(s, txid, s.applied[txid]); }
    CompletionAfter(c, s, l, Apply(c, s, l).applied[txid]);
  }

  lemma StepKeepsStages(c: Chain, s: State, l: Label)
    requires Inv(c, s) && Enabled(c, s, l)
    ensures StagesInv(Apply(c, s, l))
  {
    var s' := Apply(c, s, l);
    forall j | 0 <= j < |s'.completions| && !s'.completions[j].stage.BeforeStamp?
      ensures s'.completions[j].stage.stamp <= s'.clock
    {
      StampAfter(c, s, l, j);
    }
    forall j | 0 <= j < |s'.completions| && s'.completions[j].stage.Done? ensures s'.completions[j].txid !in s'.items {
      DoneAfter(c, s, l, j);
    }
    forall txid | txid in s'.applied ensures IsLastUpdate(s', txid, s'.applied[txid]) {
      LastUpdateAfter(c, s, l, txid);
    }
  }

  lemma DoneStaysForgotten(c: Chain, s: State, l: Label, j: nat)
    requires Inv(c, s) && Enabled(c, s, l) && j < |s.completions|
    requires s.completions[j].stage.Done? || l == Delete(j)
    ensures s.completions[j].txid !in Apply(c, s, l).items
  {
    var txid := s.completions[j].txid;
    assert Answered(c, s, txid, s.completions[j].digest);
    if txid in Apply(c, s, l).items {
      ItemsAfter(c, s, l, txid);
      assert l.Store? ==> IsTxOf(s, txid, l.batch);
    }
  }

  lemma RegisteredGrows(c: Chain, s: State, s': State, root: string)
    requires RegisteredInv(c, s) && Grows(s, s') && root in s.registered
    ensures exists b :: IsSent(s', b) && c.root(s'.batches[b].docs) == root
  {
    var b :| IsSent(s, b) && c.root(s.batches[b].docs) == root;
    assert IsSent(s', b);
  }

  lemma StepKeepsRegistered(c: Chain, s: State, l: Label)
    requires AcceptedInv(c, s) && RegisteredInv(c, s) && Enabled(c, s, l)
    ensures RegisteredInv(c, Apply(c, s, l))
  {
    var s' := Apply(c, s, l);
    StepGrows(c, s, l);
    forall root | root in s'.registered ensures exists b :: IsSent(s', b) && c.root(s'.batches[b].docs) == root {
      if root in s.registered {
        RegisteredGrows(c, s, s', root);
      } else {
        RegisteredBy(c, s, l, root);
      }
    }
  }

  lemma RegisteredBy(c: Chain, s: State, l: Label, root: string)
    requires Enabled(c, s, l) && root !in s.registered && root in Apply(c, s, l).registered
    ensures l.Register? && IsSent(Apply(c, s, l), l.batch) && c.root(Apply(c, s, l).batches[l.batch].docs) == root
  {
  }

  lemma StepKeepsInv(c: Chain, s: State, l: Label)
    requires Inv(c, s) && Enabled(c, s, l)
    ensures Inv(c, Apply(c, s, l))
  {
    StepKeepsAccepted(c, s, l);
    StepKeepsItems(c, s, l);
    StepKeepsCompletions(c, s, l);
    StepKeepsStages(c, s, l);
    StepKeepsRegistered(c, s, l);
  }

  // ---------------------------------------------------------------- batches and roots

  /** No batch is above its topic's limit; and while a batch is collected or registered, no other of its topic is
      begun. */
  ghost predicate Orderly(limits: map<string, nat>, s: State) {
    && (forall b :: 0 <= b < |s.batches| ==> |s.batches[b].docs| <= LimitOf(limits, s.batches[b].topic))
    && (forall a, b :: 0 <= a < b < |s.batches| && Busy(s.batches[a]) ==> s.batches[a].topic != s.batches[b].topic)
  }

  function LimitOf(limits: map<string, nat>, topic: string): nat {
    if topic in limits then limits[topic] else 0
  }

  lemma OneBatchOrderly(limits: map<string, nat>, s: State, s': State, b: nat)
    requires Orderly(limits, s) && b < |s.batches| == |s'.batches| && s'.batches == s.batches[b := s'.batches[b]]
    requires s'.batches[b].topic == s.batches[b].topic && (Busy(s'.batches[b]) ==> Busy(s.batches[b]))
    requires |s'.batches[b].docs| <= LimitOf(limits, s.batches[b].topic)
    ensures Orderly(limits, s')
  {
  }

  lemma BatchStepKeepsOrderly(limits: map<string, nat>, c: Chain, s: State, l: Label)
    requires Orderly(limits, s) && Enabled(c, s, l) && OnBatch(l)
    requires l.Collect? ==> |s.batches[l.batch].docs| < LimitOf(limits, s.batches[l.batch].topic)
    ensures Orderly(limits, Apply(c, s, l))
  {
    var s' := if l.Register? then Registered(c, s, l.batch, l.reply) else Apply(c, s, l);
    assert s'.batches == s.batches[l.batch := s'.batches[l.batch]];
    OneBatchOrderly(limits, s, s', l.batch);
  }

  lemma PendingStepKeepsOrderly(limits: map<string, nat>, c: Chain, s: State, l: Label)
    requires Orderly(limits, s) && Enabled(c, s, l) && OnPending(l)
    ensures Orderly(limits, Apply(c, s, l))
  {
    var s' := Apply(c, s, l);
    assert |s'.batches| == |s.batches|;
    forall b | 0 <= b < |s.batches|
      ensures s'.batches[b].topic == s.batches[b].topic && s'.batches[b].docs == s.batches[b].docs
      ensures Busy(s'.batches[b]) == Busy(s.batches[b])
    {
    }
  }

  /** The documents of all batches of a topic, in order. */
  function DocsOfTopic(batches: seq<Batch>, topic: string): seq<Document> {
    if batches == [] then []
    else DocsOfTopic(batches[..|batches|-1], topic)
         + if batches[|batches|-1].topic == topic then batches[|batches|-1].docs else []
  }

  lemma {:induction false} OtherDocsStay(batches: seq<Batch>, batches': seq<Batch>, topic: string)
    requires |batches'| == |batches|
    requires forall b :: 0 <= b < |batches| && batches[b].topic == topic ==>
               batches'[b].topic == topic && batches'[b].docs == batches[b].docs
    requires forall b :: 0 <= b < |batches| && batches'[b].topic == topic ==> batches[b].topic == topic
    ensures DocsOfTopic(batches', topic) == DocsOfTopic(batches, topic)
  {
    if batches != [] { OtherDocsStay(batches[..|batches|-1], batches'[..|batches|-1], topic); }
  }

  /** A document that is added to the last batch of its topic comes last. */
  lemma {:induction false} OneDocMore(batches: seq<Batch>, b: nat, doc: Document)
    requires b < |batches| && forall a :: b < a < |batches| ==> batches[a].topic != batches[b].topic
    ensures DocsOfTopic(batches[b := batches[b].(docs := batches[b].docs + [doc])], batches[b].topic)
         == DocsOfTopic(batches, batches[b].topic) + [doc]
  {
    var n := |batches| - 1;
    var more := batches[b].(docs := batches[b].docs + [doc]);
    if b < n {
      OneDocMore(batches[..n], b, doc);
      assert batches[b := more][..n] == batches[..n][b := more];
    } else {
      assert batches[b := more][..n] == batches[..n];
    }
  }

  /** Other steps than collecting leave the documents of all batches alone, in order. */
  lemma DocsOfTopicStay(c: Chain, s: State, l: Label, topic: string)
    requires Enabled(c, s, l) && !l.Collect?
    ensures DocsOfTopic(Apply(c, s, l).batches, topic) == DocsOfTopic(s.batches, topic)
  {
    var s' := Apply(c, s, l);
    if l.Start? {
      assert s'.batches[..|s.batches|] == s.batches;
    } else {
      SameDocs(c, s, l);
      OtherDocsStay(s.batches, s'.batches, topic);
    }
  }

  lemma SameDocs(c: Chain, s: State, l: Label)
    requires Enabled(c, s, l) && !l.Collect? && !l.Start?
    ensures |Apply(c, s, l).batches| == |s.batches|
    ensures forall b :: 0 <= b < |s.batches| ==>
              && Apply(c, s, l).batches[b].topic == s.batches[b].topic
              && Apply(c, s, l).batches[b].docs == s.batches[b].docs
  {
  }

  lemma StepKeepsOrderly(limits: map<string, nat>, c: Chain, s: State, l: Label)
    requires Orderly(limits, s) && Enabled(c, s, l)
    requires l.Collect? ==> |s.batches[l.batch].docs| < LimitOf(limits, s.batches[l.batch].topic)
    ensures Orderly(limits, Apply(c, s, l))
  {
    if OnBatch(l) {
      BatchStepKeepsOrderly(limits, c, s, l);
    } else if OnPending(l) {
      PendingStepKeepsOrderly(limits, c, s, l);
    }
  }

  /** The chain registers the root of a batch with documents, unless it refuses; a lost reply does not undo that. */
  predicate Sends(c: Chain, s: State, l: Label, root: string) {
    l.Register? && l.batch < |s.batches| && s.batches[l.batch].docs != [] && !l.reply.Refused?
    && c.root(s.batches[l.batch].docs) == root
  }

  lemma RegisteredAfter(c: Chain, s: State, l: Label, root: string)
    requires Enabled(c, s, l)
    ensures root in Apply(c, s, l).registered <==> root in s.registered || Sends(c, s, l, root)
  {
  }

  /** A lost reply leaves nothing behind but the root. */
  lemma LostReply(c: Chain, s: State, b: nat)
    requires Enabled(c, s, Register(b, Lost)) && s.batches[b].docs != []
    ensures var s' := Apply(c, s, Register(b, Lost));
            && s'.registered == s.registered + {c.root(s.batches[b].docs)}
            && s'.items == s.items && s'.accepted == s.accepted && s'.completions == s.completions
            && s'.batches == s.batches[b := s.batches[b].(phase := InvokeFailed)]
  {
  }

  // ---------------------------------------------------------------- runs

  /** `s'` has all completions of `s`, perhaps further on; what they have read from the clock stays. */
  ghost predicate Advances(s: State, s': State) {
    && |s.completions| <= |s'.completions|
    && forall j :: 0 <= j < |s.completions| ==>
         && s'.completions[j].txid == s.completions[j].txid && s'.completions[j].docs == s.completions[j].docs
         && (!s.completions[j].stage.BeforeStamp? ==>
               && !s'.completions[j].stage.BeforeStamp?
               && s'.completions[j].stage.stamp == s.completions[j].stage.stamp)
  }

  lemma StepAdvances(c: Chain, s: State, l: Label)
    requires Enabled(c, s, l)
    ensures Advances(s, Apply(c, s, l))
  {
    CompletionsStay(c, s, l);
    forall j | 0 <= j < |s.completions|
      ensures Apply(c, s, l).completions[j] == s.completions[j].(stage := StageAfter(s, l, j))
    {
      CompletionAfter(c, s, l, j);
    }
  }

  ghost predicate GoesForward(states: seq<State>) {
    forall i :: 0 <= i < |states| - 1 ==> Grows(states[i], states[i+1]) && Advances(states[i], states[i+1])
  }

  lemma {:induction false} Forward(states: seq<State>, m: nat, n: nat)
    requires GoesForward(states) && m <= n < |states|
    ensures Grows(states[m], states[n]) && Advances(states[m], states[n])
    decreases n
  {
    if m < n {
      Forward(states, m, n - 1);
      assert Grows(states[n-1], states[n-1+1]) && Advances(states[n-1], states[n-1+1]);
      GrowsOn(states[m], states[n-1], states[n]);
    }
  }

  // ---------------------------------------------------------------- what is forgotten stays forgotten

  /** The batch of this transaction has been stored, and is not kept any more. */
  predicate Forgotten(s: State, txid: string) {
    && txid in s.accepted && s.accepted[txid] < |s.batches|
    && Stored(s.batches[s.accepted[txid]].phase) && txid !in s.items
  }

  lemma ForgottenStays(c: Chain, s: State, s': State, txid: string)
    requires AcceptedInv(c, s) && ItemsInv(s) && ItemsInv(s') && Grows(s, s') && Forgotten(s, txid)
    ensures Forgotten(s', txid)
  {
    assert IsTxOf(s, txid, s.accepted[txid]);
  }

  lemma KeptIsStored(c: Chain, s: State, s': State, txid: string)
    requires AcceptedInv(c, s) && ItemsInv(s) && ItemsInv(s') && Grows(s, s')
    requires txid in s.items && txid !in s'.items
    ensures Forgotten(s', txid)
  {
    assert IsTxOf(s, txid, s.accepted[txid]);
  }

  /** The step is `Close`, or the deletion at the end of a completion of this transaction. */
  predicate Forgets(s: State, l: Label, txid: string) {
    l.Clear? || (l.Delete? && l.completion < |s.completions| && s.completions[l.completion].txid == txid)
  }

  lemma KeptUntil(c: Chain, s: State, l: Label, txid: string)
    requires Enabled(c, s, l) && txid in s.items
    ensures txid !in Apply(c, s, l).items <==> Forgets(s, l, txid)
  {
  }

  /** Forgetting a batch that is not kept any more changes nothing. */
  lemma DeleteAgain(c: Chain, s: State, j: nat)
    requires ItemsInv(s) && Enabled(c, s, Delete(j)) && s.completions[j].txid !in s.items
    ensures Apply(c, s, Delete(j)).items == s.items && Apply(c, s, Delete(j)).batches == s.batches
  {
    var txid := s.completions[j].txid;
    assert s.items - {txid} == s.items;
  }

  /** The batch of this transaction is forgotten, no update of it has reached the table, and none is still to come. */
  predicate Missed(s: State, txid: string) {
    && Forgotten(s, txid) && txid !in s.applied
    && forall j :: 0 <= j < |s.completions| && s.completions[j].txid == txid ==> IsUpdated(s, j)
  }

  lemma MissedStays(c: Chain, s: State, l: Label, txid: string)
    requires Inv(c, s) && Enabled(c, s, l) && Missed(s, txid)
    ensures Missed(Apply(c, s, l), txid)
  {
    var s' := Apply(c, s, l);
    StepKeepsItems(c, s, l);
    StepGrows(c, s, l);
    ForgottenStays(c, s, s', txid);
    MissedUpdate(c, s, l, txid);
    forall j | 0 <= j < |s'.completions| && s'.completions[j].txid == txid ensures IsUpdated(s', j) {
      MissedCompletion(c, s, l, txid, j);
    }
  }

  lemma MissedUpdate(c: Chain, s: State, l: Label, txid: string)
    requires Enabled(c, s, l) && Missed(s, txid)
    ensures txid !in Apply(c, s, l).applied
  {
    if txid in Apply(c, s, l).applied { AppliedAfter(c, s, l, txid); }
  }

  lemma MissedCompletion(c: Chain, s: State, l: Label, txid: string, j: nat)
    requires Enabled(c, s, l) && Missed(s, txid) && j < |Apply(c, s, l).completions|
    requires Apply(c, s, l).completions[j].txid == txid
    ensures IsUpdated(Apply(c, s, l), j)
  {
    CompletionAfter(c, s, l, j);
    StampStays(c, s, l, j);
  }

  /** The steps of registering one batch, without another in between. */
  lemma RegisterSteps(c: Chain, s: State, b: nat, reply: Reply)
    requires Enabled(c, s, Register(b, reply))
    ensures var docs, s1 := s.batches[b].docs, Apply(c, s, Register(b, reply));
            && b < |s1.batches|
            && s1.registered == s.registered + (if docs != [] && !reply.Refused? then {c.root(docs)} else {})
            && if docs != [] && reply.Accepted? then
                 && s1.batches[b].phase.Submitted? && Enabled(c, s1, Store(b))
                 && Apply(c, s1, Store(b)).items == s.items[reply.txid := docs]
               else !s1.batches[b].phase.Submitted? && s1.items == s.items
  {
  }

  /** The steps of handling one event, without another in between. */
  lemma EventSteps(c: Chain, s: State, txid: string, ok: bool)
    requires CanComplete(c, s, txid)
    ensures var j, s1 := |s.completions|, Apply(c, s, Begin(txid));
            && Enabled(c, s1, Stamp(j))
            && (var s2, digest := Apply(c, s1, Stamp(j)), DigestFor(c, s.items[txid], txid).value;
                && Enabled(c, s2, Update(j, ok))
                && s2.completions[j] == Completion(txid, s.items[txid], digest, BeforeUpdate(s.clock))
                && (var s3 := Apply(c, s2, Update(j, ok));
                    && Enabled(c, s3, Delete(j))
                    && Apply(c, s3, Delete(j)).items == s.items - {txid}))
  {
  }
}
