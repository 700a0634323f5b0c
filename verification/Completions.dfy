/** What repeated and early events do, over whole runs: which completions there are, what they leave in the table,
and what they leave of the batches that are kept. */
module Completions {
  import opened Wrappers
  import opened Documents
  import opened Cassandra
  import opened Blockchain
  import opened System
  import P = Persister
  import R = Registrar

  // ---------------------------------------------------------------- one step

  /** The step sets digest, time and transaction of the row. */
  ghost predicate ProvesRow(s: State, l: Label, id: string) {
    && l.UpdateDigest? && l.ok && l.completion < |s.registrar.completions|
    && id in Ids(s.registrar.completions[l.completion].docs)
  }

  /** The step inserts the document of the row. */
  ghost predicate InsertsRow(s: State, l: Label, id: string) {
    l.PersisterWrite? && l.ok && l.write < |s.persister.running| && id in Ids(s.persister.running[l.write])
  }

  /** Only the update of a completion writes proofs. */
  lemma ProofAfter(c: Config, s: State, l: Label, id: string)
    requires Enabled(c, s, l)
    ensures ProvesRow(s, l, id) ==> !s.registrar.completions[l.completion].stage.BeforeStamp?
    ensures RowAt(System.Apply(c, s, l).rows, id).proof
         == if ProvesRow(s, l, id) then Some(ProofOf(s.registrar.completions[l.completion]))
            else RowAt(s.rows, id).proof
  {
    if l.PersisterWrite? {
      InsertsEffect(s.rows, s.persister.running[l.write], id);
    } else if l.UpdateDigest? {
      var done := s.registrar.completions[l.completion];
      DigestUpdatesEffect(s.rows, IdsOf(done.docs), ProofOf(done), id);
      IdsOfMembers(done.docs, id);
    }
  }

  /** Only updates and inserts write the status, each its own. */
  lemma StatusAfter(c: Config, s: State, l: Label, id: string)
    requires Enabled(c, s, l)
    ensures RowAt(System.Apply(c, s, l).rows, id).proofStatus
         == if ProvesRow(s, l, id) then Some(AlreadyProofed) else if InsertsRow(s, l, id) then Some(NotProofed)
            else RowAt(s.rows, id).proofStatus
  {
    if l.PersisterWrite? {
      InsertsStatus(s.rows, s.persister.running[l.write], id);
    } else if l.UpdateDigest? {
      var done := s.registrar.completions[l.completion];
      DigestUpdatesStatus(s.rows, IdsOf(done.docs), ProofOf(done), id);
      IdsOfMembers(done.docs, id);
    }
  }

  /** An update of a row that has a proof is one of the same transaction, and gives the same digest. */
  lemma UpdateRepeats(c: Config, s: State, l: Label, id: string)
    requires Inv(c, s) && ProvesRow(s, l, id) && RowAt(s.rows, id).proof.Some?
    ensures var p, done := RowAt(s.rows, id).proof.value, s.registrar.completions[l.completion];
            p.txid == done.txid && p.blockDigest == done.digest
  {
    var r, p, done := s.registrar, RowAt(s.rows, id).proof.value, s.registrar.completions[l.completion];
    assert Proven(c.chain, r, id, p) && R.Answered(c.chain, r, done.txid, done.digest);
    var a :| a in R.DocsOf(r, p.txid) && a.id == id;
    var b :| b in done.docs && b.id == id;
    TransactionsAreDisjoint(c, s, p.txid, done.txid, a, b);
  }

  /** Once written, digest and transaction id stay, whatever events are repeated and whatever else is written;
      only the time of proof can change, and only to the stamp of a repeated update of the same transaction. */
  lemma ProofIsWrittenOnce(c: Config, s: State, l: Label, id: string)
    requires Reachable(c, s) && Enabled(c, s, l) && RowAt(s.rows, id).proof.Some?
    ensures var p, p' := RowAt(s.rows, id).proof, RowAt(System.Apply(c, s, l).rows, id).proof;
            if ProvesRow(s, l, id) then
              var done := s.registrar.completions[l.completion];
              && done.txid == p.value.txid && !done.stage.BeforeStamp?
              && p' == Some(p.value.(proofTime := done.stage.stamp))
            else p' == p
  {
    ReachableInv(c, s);
    ProofAfter(c, s, l, id);
    if ProvesRow(s, l, id) { UpdateRepeats(c, s, l, id); }
  }

  // ---------------------------------------------------------------- completions of a run

  /** Step `i` begins a completion of `txid`. */
  ghost predicate Begins(c: Config, states: seq<State>, labels: seq<Label>, i: int, txid: string) {
    && 0 <= i < |labels| && i < |states|
    && labels[i] == Registering(R.Begin(txid)) && R.CanComplete(c.chain, states[i].registrar, txid)
  }

  /** Completion `j` reads the clock at step `i`. */
  ghost predicate Stamps(labels: seq<Label>, i: int, j: nat) {
    0 <= i < |labels| && labels[i] == Registering(R.Stamp(j))
  }

  /** Step `i` updates the rows of the batch of `txid`. */
  ghost predicate UpdatesBatch(states: seq<State>, labels: seq<Label>, i: int, txid: string) {
    && 0 <= i < |labels| && i < |states| && labels[i].UpdateDigest? && labels[i].ok
    && labels[i].completion < |states[i].registrar.completions|
    && states[i].registrar.completions[labels[i].completion].txid == txid
  }

  /** There is a completion of this transaction, under way or done. */
  ghost predicate HasCompletion(r: R.State, txid: string) {
    exists j :: 0 <= j < |r.completions| && r.completions[j].txid == txid
  }

  /** What one step of a run does to completion `j`. */
  lemma CompletionAt(c: Config, states: seq<State>, labels: seq<Label>, i: nat, j: nat)
    requires Steps(c, states, labels) && i < |labels| && j < |states[i+1].registrar.completions|
    ensures var r, done := states[i].registrar, states[i+1].registrar.completions[j];
            if j < |r.completions| then
              && done.txid == r.completions[j].txid
              && (if labels[i] == Registering(R.Stamp(j)) then done.stage == R.BeforeUpdate(r.clock)
                  else
                    && done.stage.BeforeStamp? == r.completions[j].stage.BeforeStamp?
                    && (!done.stage.BeforeStamp? ==> done.stage.stamp == r.completions[j].stage.stamp))
            else Begins(c, states, labels, i, done.txid) && done.stage.BeforeStamp?
  {
    RegistrarAfter(c, states[i], labels[i]);
    var step := RegistrarStep(c, states[i], labels[i]);
    if step.Some? { R.CompletionAfter(c.chain, states[i].registrar, step.value, j); }
  }

  lemma ForwardAt(c: Config, states: seq<State>, labels: seq<Label>, i: nat)
    requires Steps(c, states, labels) && i < |labels|
    ensures R.Grows(states[i].registrar, states[i+1].registrar)
    ensures R.Advances(states[i].registrar, states[i+1].registrar)
  {
    RegistrarAfter(c, states[i], labels[i]);
    var step := RegistrarStep(c, states[i], labels[i]);
    if step.Some? {
      R.StepGrows(c.chain, states[i].registrar, step.value);
      R.StepAdvances(c.chain, states[i].registrar, step.value);
    }
  }

  lemma EnabledAt(c: Config, states: seq<State>, labels: seq<Label>, i: nat)
    requires Steps(c, states, labels) && i < |labels| && labels[i].UpdateDigest?
    ensures var j, completions := labels[i].completion, states[i].registrar.completions;
            j < |completions| && completions[j].stage.BeforeUpdate?
  {
    assert Enabled(c, states[i], labels[i]);
  }

  /** Over a run batches and completions only go forward, and so does the clock. */
  lemma RunGoesForward(c: Config, states: seq<State>, labels: seq<Label>, m: nat, n: nat)
    requires Steps(c, states, labels) && m <= n <= |labels|
    ensures R.Grows(states[m].registrar, states[n].registrar)
    ensures R.Advances(states[m].registrar, states[n].registrar)
  {
    var registrars := seq(|states|, i requires 0 <= i < |states| => states[i].registrar);
    forall i | 0 <= i < |registrars| - 1
      ensures R.Grows(registrars[i], registrars[i+1]) && R.Advances(registrars[i], registrars[i+1])
    {
      ForwardAt(c, states, labels, i);
    }
    R.Forward(registrars, m, n);
  }

  /** What was not so at first and is so later has become so at some step. */
  lemma {:induction false} Turn(there: seq<bool>, m: nat, n: nat) returns (e: nat)
    requires m <= n < |there| && !there[m] && there[n]
    ensures m <= e < n && !there[e] && there[e+1]
    decreases n
  {
    if there[n-1] { e := Turn(there, m, n - 1); } else { e := n - 1; }
  }

  /** The step that began a completion. */
  lemma BegunAt(c: Config, states: seq<State>, labels: seq<Label>, n: nat, j: nat) returns (e: nat)
    requires Steps(c, states, labels) && n <= |labels|
    requires |states[0].registrar.completions| <= j < |states[n].registrar.completions|
    ensures e < n && Begins(c, states, labels, e, states[n].registrar.completions[j].txid)
    ensures |states[e].registrar.completions| <= j
  {
    e := Turn(seq(|states|, i requires 0 <= i < |states| => j < |states[i].registrar.completions|), 0, n);
    CompletionAt(c, states, labels, e, j);
    RunGoesForward(c, states, labels, e + 1, n);
  }

  /** Step `i` takes completion `j` to this rank. */
  ghost predicate RaisesAt(c: Config, states: seq<State>, labels: seq<Label>, i: int, j: nat, rank: nat) {
    && 0 <= i < |labels| && i < |states| && Enabled(c, states[i], labels[i])
    && RegistrarStep(c, states[i], labels[i]).Some?
    && R.Raises(c.chain, states[i].registrar, RegistrarStep(c, states[i], labels[i]).value, j, rank)
  }

  /** The step that took a completion to this rank, and where it was before. */
  lemma RaisedAt(c: Config, states: seq<State>, labels: seq<Label>, n: nat, j: nat, rank: nat) returns (i: nat)
    requires IsRun(c, states, labels) && n <= |labels| && 0 < rank <= R.Rank(states[n].registrar, j)
    ensures i < n && RaisesAt(c, states, labels, i, j, rank) && R.Rank(states[i].registrar, j) == rank - 1
  {
    i := Turn(seq(|states|, k requires 0 <= k < |states| => rank <= R.Rank(states[k].registrar, j)), 0, n);
    RegistrarAfter(c, states[i], labels[i]);
    var step := RegistrarStep(c, states[i], labels[i]);
    if step.Some? { R.RankAfter(c.chain, states[i].registrar, step.value, j); }
  }

  /** Each completion that is done began while its batch was kept, then read the clock, then tried its update, and
      only then forgot the batch. */
  lemma CompletionInTurn(c: Config, states: seq<State>, labels: seq<Label>, n: nat, j: nat)
    returns (b: nat, t: nat, u: nat, d: nat)
    requires IsRun(c, states, labels) && n <= |labels|
    requires j < |states[n].registrar.completions| && states[n].registrar.completions[j].stage.Done?
    ensures b < t < u < d < n
    ensures labels[b].Registering? && labels[b].step.Begin? && |states[b].registrar.completions| == j
    ensures labels[b].step.txid == states[n].registrar.completions[j].txid
    ensures labels[b].step.txid in states[b].registrar.items
    ensures labels[t] == Registering(R.Stamp(j))
    ensures labels[u].UpdateDigest? && labels[u].completion == j
    ensures labels[d] == Registering(R.Delete(j))
  {
    d := RaisedAt(c, states, labels, n, j, 4);
    u := RaisedAt(c, states, labels, d, j, 3);
    t := RaisedAt(c, states, labels, u, j, 2);
    b := RaisedAt(c, states, labels, t, j, 1);
    CompletionAt(c, states, labels, b, j);
    RunGoesForward(c, states, labels, b + 1, n);
  }

  predicate IsStamped(r: R.State, j: nat) {
    j < |r.completions| && !r.completions[j].stage.BeforeStamp?
  }

  /** The step at which a completion read the clock. */
  lemma StampedAt(c: Config, states: seq<State>, labels: seq<Label>, n: nat, j: nat) returns (i: nat)
    requires IsRun(c, states, labels) && n <= |labels| && IsStamped(states[n].registrar, j)
    ensures i < n && Stamps(labels, i, j) && j < |states[i].registrar.completions|
    ensures states[n].registrar.completions[j].stage.stamp == states[i].registrar.clock
  {
    i := Turn(seq(|states|, k requires 0 <= k < |states| => IsStamped(states[k].registrar, j)), 0, n);
    CompletionAt(c, states, labels, i, j);
    RunGoesForward(c, states, labels, i + 1, n);
  }

  lemma AppliedStep(c: Config, states: seq<State>, labels: seq<Label>, n: nat, txid: string)
    requires Steps(c, states, labels) && 0 < n <= |labels| && txid in states[n].registrar.applied
    ensures var applied, applied' := states[n-1].registrar.applied, states[n].registrar.applied;
            if UpdatesBatch(states, labels, n - 1, txid) then applied'[txid] == labels[n-1].completion
            else txid in applied && applied'[txid] == applied[txid]
  {
    RegistrarAfter(c, states[n-1], labels[n-1]);
    var step := RegistrarStep(c, states[n-1], labels[n-1]);
    if step.Some? { R.AppliedAfter(c.chain, states[n-1].registrar, step.value, txid); }
  }

  /** The last step that updated the rows of a batch. */
  lemma {:induction false} LastUpdateAt(c: Config, states: seq<State>, labels: seq<Label>, n: nat, txid: string)
    returns (m: nat)
    requires IsRun(c, states, labels) && n <= |labels| && txid in states[n].registrar.applied
    ensures m < n && UpdatesBatch(states, labels, m, txid)
    ensures states[n].registrar.applied[txid] == labels[m].completion
    ensures forall i :: m < i < n ==> !UpdatesBatch(states, labels, i, txid)
  {
    AppliedStep(c, states, labels, n, txid);
    if UpdatesBatch(states, labels, n - 1, txid) {
      m := n - 1;
    } else {
      m := LastUpdateAt(c, states, labels, n - 1, txid);
    }
  }

  // ---------------------------------------------------------------- the time of proof

  /** The row's time of proof is what the clock was when the last update of its batch was stamped. */
  lemma TimeInRow(c: Config, states: seq<State>, labels: seq<Label>, n: nat, id: string)
    returns (m: nat, b: nat)
    requires IsRun(c, states, labels) && n <= |labels| && RowAt(states[n].rows, id).proof.Some?
    ensures var p := RowAt(states[n].rows, id).proof.value;
            && b < m < n && UpdatesBatch(states, labels, m, p.txid) && Stamps(labels, b, labels[m].completion)
            && (forall i :: m < i < n ==> !UpdatesBatch(states, labels, i, p.txid))
            && p.proofTime == states[b].registrar.clock
  {
    RunKeepsInv(c, states, labels, n);
    var r, p := states[n].registrar, RowAt(states[n].rows, id).proof.value;
    assert Proven(c.chain, r, id, p);
    m := LastUpdateAt(c, states, labels, n, p.txid);
    b := StampOfUpdate(c, states, labels, m, n);
  }

  lemma StampOfUpdate(c: Config, states: seq<State>, labels: seq<Label>, m: nat, n: nat)
    returns (b: nat)
    requires IsRun(c, states, labels) && m < n <= |labels| && labels[m].UpdateDigest?
    ensures b < m && Stamps(labels, b, labels[m].completion)
    ensures var j := labels[m].completion;
            && j < |states[n].registrar.completions| && !states[n].registrar.completions[j].stage.BeforeStamp?
            && states[n].registrar.completions[j].stage.stamp == states[b].registrar.clock
  {
    EnabledAt(c, states, labels, m);
    b := StampedAt(c, states, labels, m, labels[m].completion);
    RunGoesForward(c, states, labels, m, n);
  }

  /** An update sets a row's time of proof back exactly if it read the clock before the update whose time is in the row
      did, and the clock has moved in between; so a completion begun after the last update never does. */
  lemma TimeGoesBackWhen(c: Config, states: seq<State>, labels: seq<Label>, n: nat, id: string)
    returns (m: nat, a: nat, b: nat)
    requires IsRun(c, states, labels) && n < |labels|
    requires ProvesRow(states[n], labels[n], id) && RowAt(states[n].rows, id).proof.Some?
    ensures var p := RowAt(states[n].rows, id).proof.value;
            && a < n && Stamps(labels, a, labels[n].completion)
            && b < m < n && UpdatesBatch(states, labels, m, p.txid) && Stamps(labels, b, labels[m].completion)
            && (forall i :: m < i < n ==> !UpdatesBatch(states, labels, i, p.txid))
            && RowAt(states[n+1].rows, id).proof.Some?
            && (RowAt(states[n+1].rows, id).proof.value.proofTime < p.proofTime
                <==> a < b && states[a].registrar.clock != states[b].registrar.clock)
            && (|states[m].registrar.completions| <= labels[n].completion ==>
                  p.proofTime <= RowAt(states[n+1].rows, id).proof.value.proofTime)
  {
    m, b := TimeInRow(c, states, labels, n, id);
    EnabledAt(c, states, labels, n);
    ProofAfter(c, states[n], labels[n], id);
    a := StampedAt(c, states, labels, n, labels[n].completion);
    if a <= b {
      RunGoesForward(c, states, labels, a, b);
    } else {
      RunGoesForward(c, states, labels, b, a);
    }
    if a <= m { RunGoesForward(c, states, labels, a, m); }
  }

  // ---------------------------------------------------------------- the status

  /** Step `i` sets the row's proof, or inserts its document. */
  ghost predicate ProvesAt(states: seq<State>, labels: seq<Label>, i: int, id: string) {
    0 <= i < |labels| && i < |states| && ProvesRow(states[i], labels[i], id)
  }

  ghost predicate InsertsAt(states: seq<State>, labels: seq<Label>, i: int, id: string) {
    0 <= i < |labels| && i < |states| && InsertsRow(states[i], labels[i], id)
  }

  /** What one step of a history does to the row. */
  ghost predicate HistoryStep(row: Row, proves: bool, inserts: bool, row': Row) {
    if proves then row'.proofStatus == Some(AlreadyProofed)
    else row'.proof == row.proof && row'.proofStatus == if inserts then Some(NotProofed) else row.proofStatus
  }

  lemma RowAtStep(c: Config, states: seq<State>, labels: seq<Label>, i: nat, id: string)
    requires Steps(c, states, labels) && i < |labels|
    ensures HistoryStep(RowAt(states[i].rows, id), ProvesAt(states, labels, i, id), InsertsAt(states, labels, i, id),
                        RowAt(states[i+1].rows, id))
  {
    ProofAfter(c, states[i], labels[i], id);
    StatusAfter(c, states[i], labels[i], id);
  }

  /** The row over a run, and which steps set its proof, and which insert its document. */
  ghost predicate RowHistory(rows: seq<Row>, proves: seq<bool>, inserts: seq<bool>) {
    && |rows| == |proves| + 1 == |inserts| + 1 && rows[0] == BLANK
    && forall i :: 0 <= i < |proves| ==> HistoryStep(rows[i], proves[i], inserts[i], rows[i+1])
  }

  lemma {:induction false} StatusOfHistory(rows: seq<Row>, proves: seq<bool>, inserts: seq<bool>, n: nat)
    returns (m: nat)
    requires RowHistory(rows, proves, inserts) && n < |rows| && rows[n].proof.Some?
    ensures m < n && proves[m] && forall i :: m < i < n ==> !proves[i]
    ensures rows[n].proofStatus == Some(if exists i :: m < i < n && inserts[i] then NotProofed else AlreadyProofed)
  {
    if proves[n-1] {
      m := n - 1;
    } else {
      m := StatusOfHistory(rows, proves, inserts, n - 1);
      assert inserts[n-1] ==> exists i :: m < i < n && inserts[i];
    }
  }

  ghost function RowsOf(states: seq<State>, id: string): seq<Row> {
    seq(|states|, i requires 0 <= i < |states| => RowAt(states[i].rows, id))
  }

  ghost function Proving(states: seq<State>, labels: seq<Label>, id: string): seq<bool> {
    seq(|labels|, i requires 0 <= i < |labels| => ProvesAt(states, labels, i, id))
  }

  ghost function Inserting(states: seq<State>, labels: seq<Label>, id: string): seq<bool> {
    seq(|labels|, i requires 0 <= i < |labels| => InsertsAt(states, labels, i, id))
  }

  lemma HistoryOfRow(c: Config, states: seq<State>, labels: seq<Label>, id: string)
    requires Steps(c, states, labels) && RowAt(states[0].rows, id) == BLANK
    ensures RowHistory(RowsOf(states, id), Proving(states, labels, id), Inserting(states, labels, id))
  {
    var rows, proves, inserts := RowsOf(states, id), Proving(states, labels, id), Inserting(states, labels, id);
    forall i | 0 <= i < |proves| ensures HistoryStep(rows[i], proves[i], inserts[i], rows[i+1]) {
      RowAtStep(c, states, labels, i, id);
    }
  }

  /** A row with a proof says so exactly if no insert of its document has come after its last digest update. */
  lemma StatusOfProvenRow(c: Config, states: seq<State>, labels: seq<Label>, n: nat, id: string)
    returns (m: nat)
    requires IsRun(c, states, labels) && n <= |labels| && RowAt(states[n].rows, id).proof.Some?
    ensures m < n && ProvesAt(states, labels, m, id) && forall i :: m < i < n ==> !ProvesAt(states, labels, i, id)
    ensures RowAt(states[n].rows, id).proofStatus
         == Some(if exists i :: m < i < n && InsertsAt(states, labels, i, id) then NotProofed else AlreadyProofed)
  {
    HistoryOfRow(c, states, labels, id);
    m := StatusOfHistory(RowsOf(states, id), Proving(states, labels, id), Inserting(states, labels, id), n);
    forall i | m < i < n
      ensures ProvesAt(states, labels, i, id) == Proving(states, labels, id)[i]
      ensures InsertsAt(states, labels, i, id) == Inserting(states, labels, id)[i]
    {
    }
  }

  // ---------------------------------------------------------------- the signature

  lemma SignAfter(c: Config, s: State, l: Label, id: string)
    requires Enabled(c, s, l)
    ensures RowAt(System.Apply(c, s, l).rows, id).sign
         == if l.Sign? && l.id == id then Some(l.sign) else RowAt(s.rows, id).sign
  {
    if l.PersisterWrite? {
      InsertsEffect(s.rows, s.persister.running[l.write], id);
    } else if l.UpdateDigest? {
      var done := s.registrar.completions[l.completion];
      DigestUpdatesEffect(s.rows, IdsOf(done.docs), ProofOf(done), id);
    }
  }

  /** Step `i` signs the document of the row. */
  ghost predicate SignsAt(labels: seq<Label>, i: int, id: string) {
    0 <= i < |labels| && labels[i].Sign? && labels[i].id == id
  }

  lemma SignAtStep(c: Config, states: seq<State>, labels: seq<Label>, i: nat, id: string)
    requires Steps(c, states, labels) && i < |labels|
    ensures RowAt(states[i+1].rows, id).sign
         == if SignsAt(labels, i, id) then Some(labels[i].sign) else RowAt(states[i].rows, id).sign
  {
    SignAfter(c, states[i], labels[i], id);
  }

  /** What is replaced by whatever is given is what was given last. */
  lemma {:induction false} LastGiven(values: seq<Option<string>>, given: seq<Option<string>>, n: nat) returns (m: nat)
    requires |values| == |given| + 1 && values[0].None? && n < |values|
    requires forall i :: 0 <= i < |given| ==> values[i+1] == if given[i].Some? then given[i] else values[i]
    ensures values[n].None? ==> forall i :: 0 <= i < n ==> given[i].None?
    ensures values[n].Some? ==> m < n && given[m] == values[n] && forall i :: m < i < n ==> given[i].None?
  {
    m := 0;
    if n > 0 {
      m := LastGiven(values, given, n - 1);
      assert values[n-1+1] == if given[n-1].Some? then given[n-1] else values[n-1];
      if given[n-1].Some? { m := n - 1; }
    }
  }

  ghost function SignGiven(labels: seq<Label>, i: int, id: string): Option<string> {
    if SignsAt(labels, i, id) then Some(labels[i].sign) else None
  }

  /** In every run a row has the last signature that it was given, whatever is inserted, updated and repeated. */
  lemma SignOfRow(c: Config, states: seq<State>, labels: seq<Label>, n: nat, id: string) returns (m: nat)
    requires IsRun(c, states, labels) && n <= |labels|
    ensures match RowAt(states[n].rows, id).sign
            case None => forall i :: 0 <= i < n ==> !SignsAt(labels, i, id)
            case Some(sign) => && m < n && SignsAt(labels, m, id) && sign == labels[m].sign
                               && forall i :: m < i < n ==> !SignsAt(labels, i, id)
  {
    var signs := seq(|states|, i requires 0 <= i < |states| => RowAt(states[i].rows, id).sign);
    var given := seq(|labels|, i => SignGiven(labels, i, id));
    forall i | 0 <= i < |given| ensures signs[i+1] == if given[i].Some? then given[i] else signs[i] {
      SignAtStep(c, states, labels, i, id);
    }
    m := LastGiven(signs, given, n);
    assert signs[n] == RowAt(states[n].rows, id).sign;
    forall i | 0 <= i < n ensures SignsAt(labels, i, id) <==> given[i].Some? {
      assert given[i] == SignGiven(labels, i, id);
    }
  }

  // ---------------------------------------------------------------- events that come too early, or again

  /** From any state on, a transaction has a completion exactly if it had one, or some event for it came while its
      batch was stored and not yet forgotten, and could be parsed and reports on it. */
  lemma CompletedFrom(c: Config, states: seq<State>, labels: seq<Label>, n: nat, txid: string)
    requires Steps(c, states, labels) && n <= |labels|
    ensures HasCompletion(states[n].registrar, txid)
       <==> HasCompletion(states[0].registrar, txid) || exists i :: 0 <= i < n && Begins(c, states, labels, i, txid)
  {
    RunGoesForward(c, states, labels, 0, n);
    if HasCompletion(states[n].registrar, txid) {
      var j :| 0 <= j < |states[n].registrar.completions| && states[n].registrar.completions[j].txid == txid;
      if j >= |states[0].registrar.completions| { var e := BegunAt(c, states, labels, n, j); }
    }
    if i :| 0 <= i < n && Begins(c, states, labels, i, txid) { BeginsOne(c, states, labels, i, n, txid); }
  }

  lemma BeginsOne(c: Config, states: seq<State>, labels: seq<Label>, i: nat, n: nat, txid: string)
    requires Steps(c, states, labels) && i < n <= |labels| && Begins(c, states, labels, i, txid)
    ensures HasCompletion(states[n].registrar, txid)
  {
    assert states[i+1] == System.Apply(c, states[i], labels[i]);
    RunGoesForward(c, states, labels, i + 1, n);
    assert states[n].registrar.completions[|states[i].registrar.completions|].txid == txid;
  }

  lemma CompletedWhen(c: Config, states: seq<State>, labels: seq<Label>, n: nat, txid: string)
    requires IsRun(c, states, labels) && n <= |labels|
    ensures HasCompletion(states[n].registrar, txid) <==> exists i :: 0 <= i < n && Begins(c, states, labels, i, txid)
  {
    CompletedFrom(c, states, labels, n, txid);
  }

  /** A batch is handled only by a completion. */
  ghost predicate HandledInv(r: R.State) {
    forall b :: 0 <= b < |r.batches| && r.batches[b].phase.Handled? ==> HasCompletion(r, r.batches[b].phase.txid)
  }

  lemma HandledAfter(c: R.Chain, r: R.State, step: R.Label, b: nat)
    requires R.Enabled(c, r, step) && b < |R.Apply(c, r, step).batches| && R.Apply(c, r, step).batches[b].phase.Handled?
    ensures var txid := R.Apply(c, r, step).batches[b].phase.txid;
            || (b < |r.batches| && r.batches[b].phase == R.Handled(txid))
            || (step.Delete? && r.completions[step.completion].txid == txid)
  {
  }

  lemma CompletionStays(c: R.Chain, r: R.State, step: R.Label, txid: string)
    requires R.Enabled(c, r, step) && HasCompletion(r, txid)
    ensures HasCompletion(R.Apply(c, r, step), txid)
  {
    var j :| 0 <= j < |r.completions| && r.completions[j].txid == txid;
    R.CompletionsStay(c, r, step);
    R.CompletionAfter(c, r, step, j);
    assert R.Apply(c, r, step).completions[j].txid == txid;
  }

  lemma HandledStep(c: R.Chain, r: R.State, step: R.Label)
    requires R.Enabled(c, r, step) && HandledInv(r)
    ensures HandledInv(R.Apply(c, r, step))
  {
    var r' := R.Apply(c, r, step);
    forall b | 0 <= b < |r'.batches| && r'.batches[b].phase.Handled?
      ensures HasCompletion(r', r'.batches[b].phase.txid)
    {
      HandledAfter(c, r, step, b);
      CompletionStays(c, r, step, r'.batches[b].phase.txid);
    }
  }

  lemma {:induction false} HandledOfRun(c: Config, states: seq<State>, labels: seq<Label>, n: nat)
    requires IsRun(c, states, labels) && n <= |labels|
    ensures HandledInv(states[n].registrar)
  {
    if n > 0 {
      HandledOfRun(c, states, labels, n - 1);
      RegistrarAfter(c, states[n-1], labels[n-1]);
      var step := RegistrarStep(c, states[n-1], labels[n-1]);
      if step.Some? { HandledStep(c.chain, states[n-1].registrar, step.value); }
    }
  }

  /** If no event for a transaction came in that time, no row ever gets it, and its batch is never handled:
      once stored, it is kept until `Close` clears it. */
  lemma EarlyEventIsLost(c: Config, states: seq<State>, labels: seq<Label>, n: nat, txid: string)
    requires IsRun(c, states, labels) && n <= |labels|
    requires !exists i :: 0 <= i < n && Begins(c, states, labels, i, txid)
    ensures !HasCompletion(states[n].registrar, txid)
    ensures forall id :: RowAt(states[n].rows, id).proof.Some? ==> RowAt(states[n].rows, id).proof.value.txid != txid
    ensures var r := states[n].registrar;
            forall b :: R.IsTxOf(r, txid, b) ==>
              r.batches[b].phase == R.Submitted(txid) || r.batches[b].phase == R.Cleared(txid)
              || (r.batches[b].phase == R.Pending(txid) && txid in r.items && r.items[txid] == r.batches[b].docs)
  {
    CompletedWhen(c, states, labels, n, txid);
    RunKeepsInv(c, states, labels, n);
    HandledOfRun(c, states, labels, n);
    var r := states[n].registrar;
    forall id | RowAt(states[n].rows, id).proof.Some? ensures RowAt(states[n].rows, id).proof.value.txid != txid {
      var p := RowAt(states[n].rows, id).proof.value;
      assert Proven(c.chain, r, id, p);
      assert R.IsLastUpdate(r, p.txid, r.applied[p.txid]);
    }
    forall b | R.IsTxOf(r, txid, b)
      ensures r.batches[b].phase == R.Submitted(txid) || r.batches[b].phase == R.Cleared(txid)
              || (r.batches[b].phase == R.Pending(txid) && txid in r.items && r.items[txid] == r.batches[b].docs)
    {
    }
  }

  /** A batch that has been stored and is not kept any more is never kept again, in any run. */
  lemma ForgottenForGood(c: Config, states: seq<State>, labels: seq<Label>, m: nat, n: nat, txid: string)
    requires IsRun(c, states, labels) && m <= n <= |labels| && R.Forgotten(states[m].registrar, txid)
    ensures R.Forgotten(states[n].registrar, txid)
  {
    RunKeepsInv(c, states, labels, m);
    RunKeepsInv(c, states, labels, n);
    RunGoesForward(c, states, labels, m, n);
    R.ForgottenStays(c.chain, states[m].registrar, states[n].registrar, txid);
  }

  /** Step `i` ends a completion of this transaction, or is the registrar's `Close`. */
  ghost predicate ForgetsAt(states: seq<State>, labels: seq<Label>, i: int, txid: string) {
    && 0 <= i < |labels| && i < |states| && labels[i].Registering?
    && R.Forgets(states[i].registrar, labels[i].step, txid)
  }

  lemma RegistrarInvAt(c: Config, states: seq<State>, labels: seq<Label>, n: nat)
    requires IsRun(c, states, labels) && n <= |labels|
    ensures R.AcceptedInv(c.chain, states[n].registrar) && R.ItemsInv(states[n].registrar)
  {
    RunKeepsInv(c, states, labels, n);
  }

  lemma ForgottenSince(c: Config, states: seq<State>, labels: seq<Label>, m: nat, i: nat, n: nat, txid: string)
    requires IsRun(c, states, labels) && m <= i <= n <= |labels|
    requires txid in states[m].registrar.items && txid !in states[i].registrar.items
    ensures txid !in states[n].registrar.items
  {
    RegistrarInvAt(c, states, labels, m);
    RegistrarInvAt(c, states, labels, i);
    RunGoesForward(c, states, labels, m, i);
    R.KeptIsStored(c.chain, states[m].registrar, states[i].registrar, txid);
    ForgottenForGood(c, states, labels, i, n, txid);
  }

  lemma KeptAt(c: Config, states: seq<State>, labels: seq<Label>, i: nat, txid: string)
    requires Steps(c, states, labels) && i < |labels| && txid in states[i].registrar.items
    ensures txid !in states[i+1].registrar.items <==> ForgetsAt(states, labels, i, txid)
  {
    RegistrarAfter(c, states[i], labels[i]);
    var step := RegistrarStep(c, states[i], labels[i]);
    if step.Some? { R.KeptUntil(c.chain, states[i].registrar, step.value, txid); }
  }

  lemma ForgottenBy(c: Config, states: seq<State>, labels: seq<Label>, m: nat, n: nat, txid: string) returns (i: nat)
    requires Steps(c, states, labels) && m <= n <= |labels|
    requires txid in states[m].registrar.items && txid !in states[n].registrar.items
    ensures m <= i < n && ForgetsAt(states, labels, i, txid)
  {
    i := Turn(seq(|states|, k requires 0 <= k < |states| => txid !in states[k].registrar.items), m, n);
    KeptAt(c, states, labels, i, txid);
  }

  /** A batch that is kept is forgotten exactly when a completion of it ends or `Close` clears what is kept. */
  lemma ForgottenWhen(c: Config, states: seq<State>, labels: seq<Label>, m: nat, n: nat, txid: string)
    requires IsRun(c, states, labels) && m <= n <= |labels| && txid in states[m].registrar.items
    ensures txid !in states[n].registrar.items <==> exists i :: m <= i < n && ForgetsAt(states, labels, i, txid)
  {
    if txid !in states[n].registrar.items { var i := ForgottenBy(c, states, labels, m, n, txid); }
    if i :| m <= i < n && ForgetsAt(states, labels, i, txid) {
      if txid in states[i].registrar.items {
        KeptAt(c, states, labels, i, txid);
        ForgottenSince(c, states, labels, m, i + 1, n, txid);
      } else {
        ForgottenSince(c, states, labels, m, i, n, txid);
      }
    }
  }

  /** After one completion of a transaction is done, the others leave what is kept, and every batch, as it left them;
      and an event that comes after that changes nothing at all. */
  lemma RepeatsForgetNothing(c: Config, s: State, k: nat, j: nat)
    requires Reachable(c, s) && k < |s.registrar.completions| && s.registrar.completions[k].stage.Done?
    requires Enabled(c, s, Registering(R.Delete(j)))
    requires s.registrar.completions[j].txid == s.registrar.completions[k].txid
    ensures R.Forgotten(s.registrar, s.registrar.completions[k].txid)
    ensures System.Apply(c, s, Registering(R.Delete(j))).registrar.items == s.registrar.items
    ensures System.Apply(c, s, Registering(R.Delete(j))).registrar.batches == s.registrar.batches
    ensures System.Apply(c, s, Registering(R.Begin(s.registrar.completions[k].txid))) == s
  {
    ReachableInv(c, s);
    var r := s.registrar;
    assert R.Answered(c.chain, r, r.completions[k].txid, r.completions[k].digest);
    R.DeleteAgain(c.chain, r, j);
  }

  // ---------------------------------------------------------------- updates that fail

  /** A batch that has been forgotten, by a completion whose update failed or by `Close`, before an update has reached
      the table, gets no digest in any continuation, once none of its completions is still to update. */
  lemma {:induction false} MissedForGood(c: Config, states: seq<State>, labels: seq<Label>, n: nat, txid: string)
    requires Steps(c, states, labels) && Reachable(c, states[0]) && n <= |labels|
    requires R.Missed(states[0].registrar, txid)
    ensures R.Missed(states[n].registrar, txid) && Inv(c, states[n])
    ensures forall id :: RowAt(states[n].rows, id).proof.Some? ==> RowAt(states[n].rows, id).proof.value.txid != txid
    ensures forall doc :: doc in R.DocsOf(states[n].registrar, txid) ==> RowAt(states[n].rows, doc.id).proof.None?
  {
    if n > 0 {
      MissedForGood(c, states, labels, n - 1, txid);
      MissedAt(c, states, labels, n - 1, txid);
    } else {
      ReachableInv(c, states[0]);
    }
    NoneProven(c, states[n], txid);
  }

  lemma MissedAt(c: Config, states: seq<State>, labels: seq<Label>, i: nat, txid: string)
    requires Steps(c, states, labels) && i < |labels| && Inv(c, states[i]) && R.Missed(states[i].registrar, txid)
    ensures R.Missed(states[i+1].registrar, txid) && Inv(c, states[i+1])
  {
    StepKeepsInv(c, states[i], labels[i]);
    RegistrarAfter(c, states[i], labels[i]);
    var step := RegistrarStep(c, states[i], labels[i]);
    if step.Some? { R.MissedStays(c.chain, states[i].registrar, step.value, txid); }
  }

  lemma NoneProven(c: Config, s: State, txid: string)
    requires Inv(c, s) && txid !in s.registrar.applied
    ensures forall id :: RowAt(s.rows, id).proof.Some? ==> RowAt(s.rows, id).proof.value.txid != txid
    ensures forall doc :: doc in R.DocsOf(s.registrar, txid) ==> RowAt(s.rows, doc.id).proof.None?
  {
    forall id | RowAt(s.rows, id).proof.Some? ensures RowAt(s.rows, id).proof.value.txid != txid {
      assert Proven(c.chain, s.registrar, id, RowAt(s.rows, id).proof.value);
    }
    forall doc | doc in R.DocsOf(s.registrar, txid) ensures RowAt(s.rows, doc.id).proof.None? {
      NotProven(c, s, txid, doc);
    }
  }

  lemma NotProven(c: Config, s: State, txid: string, doc: Document)
    requires Inv(c, s) && txid !in s.registrar.applied && doc in R.DocsOf(s.registrar, txid)
    ensures RowAt(s.rows, doc.id).proof.None?
  {
    if RowAt(s.rows, doc.id).proof.Some? {
      var p := RowAt(s.rows, doc.id).proof.value;
      assert Proven(c.chain, s.registrar, doc.id, p);
      var d :| d in R.DocsOf(s.registrar, p.txid) && d.id == doc.id;
      TransactionsAreDisjoint(c, s, txid, p.txid, doc, d);
    }
  }
}
