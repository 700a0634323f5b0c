/** The documents table and the persister that writes it.

INSERT and UPDATE are both upserts: each sets some columns of a row and leaves the others alone,
making the row if there is none. Columns that are only ever written together are one field here. */
module Cassandra {
  import opened Wrappers
  import opened Documents

  datatype Body = Body(hash: string, submitTime: int, waitDuration: int, metadata: string, appName: string)

  datatype Proof = Proof(blockDigest: string, proofTime: int, txid: string)

  datatype Row = Row(body: Option<Body>, proof: Option<Proof>, sign: Option<string>, proofStatus: Option<ProofStatus>)

  const BLANK := Row(None, None, None, None)

  type Rows = map<string, Row>

  datatype Statement =
    | InsertDoc(doc: Document)
    | SetDigest(docId: string, proof: Proof)
    | SetSign(docId: string, sign: string)
  {
    function Target(): string {
      if InsertDoc? then doc.id else docId
    }
  }

  function BodyOf(doc: Document): Body {
    Body(doc.hash, doc.submitTime, doc.waitDuration, doc.metadata, doc.appName)
  }

  function RowAt(rows: Rows, id: string): Row {
    if id in rows then rows[id] else BLANK
  }

  function Write(row: Row, st: Statement): Row {
    match st
    case InsertDoc(doc) => row.(body := Some(BodyOf(doc)), proofStatus := Some(NotProofed))
    case SetDigest(_, proof) => row.(proof := Some(proof), proofStatus := Some(AlreadyProofed))
    case SetSign(_, sign) => row.(sign := Some(sign))
  }

  function Apply(rows: Rows, st: Statement): Rows {
    rows[st.Target() := Write(RowAt(rows, st.Target()), st)]
  }

  /** The table after the statements of a batch, in order. */
  function Execute(rows: Rows, batch: seq<Statement>): Rows {
    if batch == [] then rows
    else Apply(Execute(rows, batch[..|batch|-1]), batch[|batch|-1])
  }

  function Inserts(docs: seq<Document>): seq<Statement> {
    seq(|docs|, i requires 0 <= i < |docs| => InsertDoc(docs[i]))
  }

  function DigestUpdates(ids: seq<string>, proof: Proof): seq<Statement> {
    seq(|ids|, i requires 0 <= i < |ids| => SetDigest(ids[i], proof))
  }

  /** What a query returns for a row: null columns read as Go's zero values. */
  function ToDocument(id: string, row: Row): Document {
    var body := row.body.GetOr(Body("", 0, 0, "", ""));
    var proof := row.proof.GetOr(Proof("", 0, ""));
    Document(id, proof.blockDigest, body.submitTime, proof.proofTime, body.hash, body.waitDuration, body.metadata,
             proof.txid, row.sign.GetOr(""), body.appName, row.proofStatus.GetOr(NotSpecified))
  }

  /** Each field is its column, or the zero value where the column is null. */
  predicate ReadsColumns(id: string, row: Row, doc: Document) {
    && doc.id == id
    && (match row.body
        case Some(body) =>
          && doc.hash == body.hash && doc.submitTime == body.submitTime && doc.waitDuration == body.waitDuration
          && doc.metadata == body.metadata && doc.appName == body.appName
        case None =>
          doc.hash == "" && doc.submitTime == 0 && doc.waitDuration == 0 && doc.metadata == "" && doc.appName == "")
    && (match row.proof
        case Some(proof) =>
          doc.blockDigest == proof.blockDigest && doc.proofTime == proof.proofTime && doc.txid == proof.txid
        case None => doc.blockDigest == "" && doc.proofTime == 0 && doc.txid == "")
    && doc.sign == (if row.sign.Some? then row.sign.value else "")
    && doc.proofStatus == (if row.proofStatus.Some? then row.proofStatus.value else NotSpecified)
  }

  predicate HasDigest(row: Row, digest: string) {
    row.proof.Some? && row.proof.value.blockDigest == digest
  }

  predicate HasHash(row: Row, hash: string) {
    row.body.Some? && row.body.value.hash == hash
  }

  /** `docs` lists every row that matches once, in some order. */
  ghost predicate Lists(rows: Rows, matches: Row -> bool, docs: seq<Document>) {
    && DistinctIds(docs)
    && (forall i :: 0 <= i < |docs| ==>
          docs[i].id in rows && matches(rows[docs[i].id]) && docs[i] == ToDocument(docs[i].id, rows[docs[i].id]))
    && (forall id :: id in rows && matches(rows[id]) ==> id in Ids(docs))
  }

  // ---------------------------------------------------------------- columns are last writes

  function LastBody(batch: seq<Statement>, id: string): Option<Body> {
    if batch == [] then None else
    var st := batch[|batch|-1];
    if st.InsertDoc? && st.doc.id == id then Some(BodyOf(st.doc)) else LastBody(batch[..|batch|-1], id)
  }

  function LastProof(batch: seq<Statement>, id: string): Option<Proof> {
    if batch == [] then None else
    var st := batch[|batch|-1];
    if st.SetDigest? && st.docId == id then Some(st.proof) else LastProof(batch[..|batch|-1], id)
  }

  function LastSign(batch: seq<Statement>, id: string): Option<string> {
    if batch == [] then None else
    var st := batch[|batch|-1];
    if st.SetSign? && st.docId == id then Some(st.sign) else LastSign(batch[..|batch|-1], id)
  }

  function Or<T>(x: Option<T>, y: Option<T>): Option<T> {
    if x.Some? then x else y
  }

  /** Each column group holds what the last statement writing it to this row wrote, whatever came between. */
  lemma {:induction false} ColumnsAreLastWrites(rows: Rows, batch: seq<Statement>, id: string)
    ensures var row, row' := RowAt(rows, id), RowAt(Execute(rows, batch), id);
            && row'.body == Or(LastBody(batch, id), row.body)
            && row'.proof == Or(LastProof(batch, id), row.proof)
            && row'.sign == Or(LastSign(batch, id), row.sign)
    ensures id in Execute(rows, batch) <==> id in rows || exists st :: st in batch && st.Target() == id
  {
    if batch != [] {
      var init, last := batch[..|batch|-1], batch[|batch|-1];
      ColumnsAreLastWrites(rows, init, id);
      assert batch == init + [last];
      assert forall st :: st in batch <==> st in init || st == last;
    }
  }

  lemma {:induction false} LastBodyIsWritten(batch: seq<Statement>, id: string)
    ensures match LastBody(batch, id)
            case Some(body) => exists doc :: InsertDoc(doc) in batch && doc.id == id && body == BodyOf(doc)
            case None => forall doc :: InsertDoc(doc) in batch ==> doc.id != id
  {
    if batch != [] {
      var init, last := batch[..|batch|-1], batch[|batch|-1];
      LastBodyIsWritten(init, id);
      assert batch == init + [last];
      assert forall st :: st in batch <==> st in init || st == last;
    }
  }

  lemma {:induction false} LastProofIsWritten(batch: seq<Statement>, id: string)
    ensures match LastProof(batch, id)
            case Some(proof) => SetDigest(id, proof) in batch
            case None => forall proof :: SetDigest(id, proof) !in batch
  {
    if batch != [] {
      var init, last := batch[..|batch|-1], batch[|batch|-1];
      LastProofIsWritten(init, id);
      assert batch == init + [last];
      assert forall st :: st in batch <==> st in init || st == last;
    }
  }

  lemma {:induction false} LastSignIsWritten(batch: seq<Statement>, id: string)
    ensures match LastSign(batch, id)
            case Some(sign) => SetSign(id, sign) in batch
            case None => forall sign :: SetSign(id, sign) !in batch
  {
    if batch != [] {
      var init, last := batch[..|batch|-1], batch[|batch|-1];
      LastSignIsWritten(init, id);
      assert batch == init + [last];
      assert forall st :: st in batch <==> st in init || st == last;
    }
  }

  /** Statements of one kind for this row all write the same. */
  ghost predicate Consistent(batch: seq<Statement>, id: string) {
    && (forall d, e :: InsertDoc(d) in batch && InsertDoc(e) in batch && d.id == id == e.id ==> BodyOf(d) == BodyOf(e))
    && (forall p, q :: SetDigest(id, p) in batch && SetDigest(id, q) in batch ==> p == q)
    && (forall s, t :: SetSign(id, s) in batch && SetSign(id, t) in batch ==> s == t)
  }

  /** The same statements in another order, each as often as one likes, leave every column
      but `proofStatus` the same. */
  lemma UpsertsConverge(rows: Rows, a: seq<Statement>, b: seq<Statement>, id: string)
    requires forall st :: st in a <==> st in b
    requires Consistent(a, id)
    ensures RowAt(Execute(rows, a), id).(proofStatus := None) == RowAt(Execute(rows, b), id).(proofStatus := None)
  {
    ColumnsAreLastWrites(rows, a, id);
    ColumnsAreLastWrites(rows, b, id);
    LastBodyIsWritten(a, id);
    LastBodyIsWritten(b, id);
    LastProofIsWritten(a, id);
    LastProofIsWritten(b, id);
    LastSignIsWritten(a, id);
    LastSignIsWritten(b, id);
  }

  predicate SetsStatus(st: Statement, id: string) {
    st.Target() == id && !st.SetSign?
  }

  /** `proofStatus` tells only which of the two writers came last. */
  lemma {:induction false} StatusIsLastWriter(rows: Rows, batch: seq<Statement>, i: nat, id: string)
    requires i < |batch| && SetsStatus(batch[i], id)
    requires forall j :: i < j < |batch| ==> !SetsStatus(batch[j], id)
    ensures RowAt(Execute(rows, batch), id).proofStatus
         == Some(if batch[i].SetDigest? then AlreadyProofed else NotProofed)
  {
    if i < |batch| - 1 {
      assert !SetsStatus(batch[|batch|-1], id);
      StatusIsLastWriter(rows, batch[..|batch|-1], i, id);
    }
  }

  predicate InsertsRow(st: Statement, id: string) {
    st.InsertDoc? && st.doc.id == id
  }

  predicate ProvesRow(st: Statement, id: string) {
    st.SetDigest? && st.docId == id
  }

  /** A row that has a proof says so exactly if it has not been inserted since its last digest update. */
  lemma StatusTellsProofWhen(rows: Rows, batch: seq<Statement>, i: nat, id: string)
    requires i < |batch| && ProvesRow(batch[i], id)
    requires forall j :: i < j < |batch| ==> !ProvesRow(batch[j], id)
    ensures RowAt(Execute(rows, batch), id).proof == Some(batch[i].proof)
    ensures RowAt(Execute(rows, batch), id).proofStatus == Some(AlreadyProofed)
       <==> forall j :: i < j < |batch| ==> !InsertsRow(batch[j], id)
  {
    LastProofAt(batch, i, id);
    ColumnsAreLastWrites(rows, batch, id);
    if forall j :: i < j < |batch| ==> !InsertsRow(batch[j], id) {
      StatusIsLastWriter(rows, batch, i, id);
    } else {
      var last := LastInsert(batch, id);
      StatusIsLastWriter(rows, batch, last, id);
    }
  }

  lemma {:induction false} LastProofAt(batch: seq<Statement>, i: nat, id: string)
    requires i < |batch| && ProvesRow(batch[i], id)
    requires forall j :: i < j < |batch| ==> !ProvesRow(batch[j], id)
    ensures LastProof(batch, id) == Some(batch[i].proof)
  {
    if i < |batch| - 1 {
      assert !ProvesRow(batch[|batch|-1], id);
      LastProofAt(batch[..|batch|-1], i, id);
    }
  }

  lemma {:induction false} LastInsert(batch: seq<Statement>, id: string) returns (last: nat)
    requires exists j :: 0 <= j < |batch| && InsertsRow(batch[j], id)
    ensures last < |batch| && InsertsRow(batch[last], id)
    ensures forall j :: last < j < |batch| ==> !InsertsRow(batch[j], id)
  {
    last := |batch| - 1;
    if !InsertsRow(batch[last], id) {
      var j :| 0 <= j < |batch| && InsertsRow(batch[j], id);
      assert InsertsRow(batch[..last][j], id);
      last := LastInsert(batch[..last], id);
    }
  }

  // ---------------------------------------------------------------- the batches the program writes

  lemma InsertsEffect(rows: Rows, docs: seq<Document>, id: string)
    ensures var row, row' := RowAt(rows, id), RowAt(Execute(rows, Inserts(docs)), id);
            && row'.proof == row.proof && row'.sign == row.sign
            && (if id in Ids(docs) then exists doc :: doc in docs && doc.id == id && row'.body == Some(BodyOf(doc))
                else row'.body == row.body)
    ensures id in Execute(rows, Inserts(docs)) <==> id in rows || id in Ids(docs)
  {
    var batch := Inserts(docs);
    ColumnsAreLastWrites(rows, batch, id);
    LastBodyIsWritten(batch, id);
    LastProofIsWritten(batch, id);
    LastSignIsWritten(batch, id);
    forall doc | doc in docs ensures InsertDoc(doc) in batch {
      var i :| 0 <= i < |docs| && docs[i] == doc;
      assert batch[i] == InsertDoc(doc);
    }
  }

  lemma DigestUpdatesEffect(rows: Rows, ids: seq<string>, proof: Proof, id: string)
    ensures var row, row' := RowAt(rows, id), RowAt(Execute(rows, DigestUpdates(ids, proof)), id);
            && row'.body == row.body && row'.sign == row.sign
            && row'.proof == if id in ids then Some(proof) else row.proof
    ensures id in Execute(rows, DigestUpdates(ids, proof)) <==> id in rows || id in ids
  {
    var batch := DigestUpdates(ids, proof);
    ColumnsAreLastWrites(rows, batch, id);
    LastBodyIsWritten(batch, id);
    LastProofIsWritten(batch, id);
    LastSignIsWritten(batch, id);
    if id in ids {
      var i :| 0 <= i < |ids| && ids[i] == id;
      assert batch[i] == SetDigest(id, proof);
    }
  }

  lemma {:induction false} InsertsStatus(rows: Rows, docs: seq<Document>, id: string)
    ensures RowAt(Execute(rows, Inserts(docs)), id).proofStatus
         == if id in Ids(docs) then Some(NotProofed) else RowAt(rows, id).proofStatus
  {
    if docs != [] {
      var init, last := docs[..|docs|-1], docs[|docs|-1];
      InsertsStatus(rows, init, id);
      assert Inserts(docs)[..|docs|-1] == Inserts(init);
      assert forall doc :: doc in docs <==> doc in init || doc == last;
      assert id in Ids(docs) <==> id in Ids(init) || id == last.id;
    }
  }

  lemma {:induction false} DigestUpdatesStatus(rows: Rows, ids: seq<string>, proof: Proof, id: string)
    ensures RowAt(Execute(rows, DigestUpdates(ids, proof)), id).proofStatus
         == if id in ids then Some(AlreadyProofed) else RowAt(rows, id).proofStatus
  {
    if ids != [] {
      var init, last := ids[..|ids|-1], ids[|ids|-1];
      DigestUpdatesStatus(rows, init, proof, id);
      assert DigestUpdates(ids, proof)[..|ids|-1] == DigestUpdates(init, proof);
      assert id in ids <==> id in init || id == last;
    }
  }

  // ---------------------------------------------------------------- what is read back

  /** A document that was inserted, given a digest and signed, is read back column by column as it was written. */
  lemma RoundTrip(rows: Rows, doc: Document, digest: string, txid: string, now: int, sign: string)
    ensures var inserted := Execute(rows, Inserts([doc]));
            var proved := Execute(inserted, DigestUpdates([doc.id], Proof(digest, now, txid)));
            var signed := Apply(proved, SetSign(doc.id, sign));
            && doc.id in signed
            && var back := ToDocument(doc.id, signed[doc.id]);
               && back.id == doc.id && back.hash == doc.hash && back.submitTime == doc.submitTime
               && back.waitDuration == doc.waitDuration && back.metadata == doc.metadata
               && back.appName == doc.appName
               && back.blockDigest == digest && back.proofTime == now && back.txid == txid
               && back.sign == sign && back.proofStatus == AlreadyProofed
  {
    var inserted := Execute(rows, Inserts([doc]));
    InsertsEffect(rows, [doc], doc.id);
    assert doc in [doc] && doc.id in [doc.id];
    DigestUpdatesEffect(inserted, [doc.id], Proof(digest, now, txid), doc.id);
    DigestUpdatesStatus(inserted, [doc.id], Proof(digest, now, txid), doc.id);
  }

  // ---------------------------------------------------------------- the persister

  class CassandraPersister {
    var rows: Rows

    constructor ()
      ensures rows == map[]
    {
      rows := map[];
    }

    /** A failed batch is logged, and reported as a success. */
    method PutDocsIntoDB(docs: seq<Document>, sessionOk: bool) returns (failed: bool)
      modifies this
      ensures !failed
      ensures rows == if sessionOk then Execute(old(rows), Inserts(docs)) else old(rows)
    {
      var batch: seq<Statement> := [];
      for i := 0 to |docs|
        invariant batch == Inserts(docs[..i])
        invariant rows == old(rows)
      {
        batch := batch + [InsertDoc(docs[i])];
      }
      assert docs[..|docs|] == docs;
      if sessionOk {
        rows := Execute(rows, batch);
      }
      failed := false;
    }

    method SetDocsBlockDigest(docIds: seq<string>, digest: string, txid: string, now: int, sessionOk: bool)
      returns (failed: bool)
      modifies this
      ensures failed <==> docIds != [] && !sessionOk
      ensures rows == if failed then old(rows)
                      else Execute(old(rows), DigestUpdates(docIds, Proof(digest, now, txid)))
    {
      if |docIds| == 0 {
        return false;
      }
      var batch: seq<Statement> := [];
      for i := 0 to |docIds|
        invariant batch == DigestUpdates(docIds[..i], Proof(digest, now, txid))
        invariant rows == old(rows)
      {
        batch := batch + [SetDigest(docIds[i], Proof(digest, now, txid))];
      }
      assert docIds[..|docIds|] == docIds;
      if !sessionOk {
        return true;
      }
      rows := Execute(rows, batch);
      failed := false;
    }

    method SetDocSignature(docId: string, sign: string, sessionOk: bool) returns (failed: bool)
      modifies this
      ensures failed <==> docId == "" || sign == "" || !sessionOk
      ensures rows == if failed then old(rows) else Apply(old(rows), SetSign(docId, sign))
    {
      if docId == "" || sign == "" || !sessionOk {
        return true;
      }
      rows := Apply(rows, SetSign(docId, sign));
      failed := false;
    }

    method GetDocFromDBByDocID(docId: string, sessionOk: bool) returns (r: Result<Document>)
      ensures r.Ok? <==> docId != "" && docId in rows && sessionOk
      ensures r.Ok? ==> r.value == ToDocument(docId, rows[docId]) && ReadsColumns(docId, rows[docId], r.value)
    {
      if docId == "" {
        return Err("empty document id");
      }
      if docId !in rows || !sessionOk {
        return Err("not found");
      }
      r := Ok(ToDocument(docId, rows[docId]));
    }

    /** Reads the rows one by one off a cursor that yields them in no particular order. */
    method IterToDocs(matches: Row -> bool, cursorOk: bool) returns (r: Result<seq<Document>>)
      ensures r.Ok? <==> cursorOk
      ensures r.Ok? ==> Lists(rows, matches, r.value)
      ensures r.Ok? ==> forall doc :: doc in r.value ==> doc.id in rows && ReadsColumns(doc.id, rows[doc.id], doc)
    {
      var docs: seq<Document> := [];
      var todo := rows.Keys;
      while todo != {}
        invariant todo <= rows.Keys && DistinctIds(docs) && Ids(docs) !! todo
        invariant forall i :: 0 <= i < |docs| ==>
                    && docs[i].id in rows && matches(rows[docs[i].id])
                    && docs[i] == ToDocument(docs[i].id, rows[docs[i].id])
        invariant forall id :: id in rows && id !in todo && matches(rows[id]) ==> id in Ids(docs)
        decreases todo
      {
        var id :| id in todo;
        todo := todo - {id};
        if matches(rows[id]) {
          ghost var before := docs;
          docs := docs + [ToDocument(id, rows[id])];
          forall i | 0 <= i < |before| ensures before[i].id != id {
            assert before[i] in before;
          }
          forall other | other in Ids(before) ensures other in Ids(docs) {
            var doc :| doc in before && doc.id == other;
            assert doc in docs;
          }
          assert docs[|docs|-1] in docs;
        }
      }
      r := if cursorOk then Ok(docs) else Err("cursor");
    }

    method FindDocsByBlockDigest(digest: string, cursorOk: bool) returns (r: Result<seq<Document>>)
      ensures r.Ok? <==> digest != "" && cursorOk
      ensures r.Ok? ==> Lists(rows, row => HasDigest(row, digest), r.value)
      ensures r.Ok? ==> forall doc :: doc in r.value ==> doc.blockDigest == digest && doc.id in rows
      ensures r.Ok? ==> forall id :: id in rows && ToDocument(id, rows[id]).blockDigest == digest ==> id in Ids(r.value)
    {
      if digest == "" {
        return Err("invalid digest");
      }
      r := IterToDocs(row => HasDigest(row, digest), cursorOk);
    }

    method FindDocsByHash(hash: string, cursorOk: bool) returns (r: Result<seq<Document>>)
      ensures r.Ok? <==> hash != "" && cursorOk
      ensures r.Ok? ==> Lists(rows, row => HasHash(row, hash), r.value)
      ensures r.Ok? ==> forall doc :: doc in r.value ==> doc.hash == hash && doc.id in rows
      ensures r.Ok? ==> forall id :: id in rows && ToDocument(id, rows[id]).hash == hash ==> id in Ids(r.value)
    {
      if hash == "" {
        return Err("invalid hash");
      }
      r := IterToDocs(row => HasHash(row, hash), cursorOk);
    }
  }
}
