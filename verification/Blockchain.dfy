/** The registrar: sends the roots of batches to the chain, keeps the batches by transaction until the chain's
event arrives, and then records in the database what the chain answered. */
module Blockchain {
  import opened Wrappers
  import opened Documents
  import opened Merkle
  import opened Proofs
  import opened Cassandra
  import opened Ring

  datatype Hashes = Hashes(sha256: Hash, sha3: Hash)

  /** What an event reports: for each root registered by the transaction, the chain's proof hash. */
  type Payload = map<string, string>

  function ProofKey(h: Hashes, proofHash: string): string {
    Hex(h.sha3(proofHash))
  }

  lemma ProofKeyIs(h: Hashes, proofHash: string)
    ensures IsBytes(h.sha3(proofHash)) ==> IsHexOf(ProofKey(h, proofHash), h.sha3(proofHash))
  {
    if IsBytes(h.sha3(proofHash)) { HexIs(h.sha3(proofHash)); }
  }

  /** The digest that a batch gets from a payload, if the payload is about it. */
  function DigestFrom(h: Hashes, docs: seq<Document>, payload: Payload): Option<string> {
    var root := RootOf(h.sha256, docs);
    if root in payload then Some(ProofKey(h, payload[root])) else None
  }

  function IdsOf(docs: seq<Document>): seq<string> {
    seq(|docs|, i requires 0 <= i < |docs| => docs[i].id)
  }

  lemma IdsOfMembers(docs: seq<Document>, id: string)
    ensures id in IdsOf(docs) <==> id in Ids(docs)
  {
    if id in Ids(docs) {
      var doc :| doc in docs && doc.id == id;
      var i :| 0 <= i < |docs| && docs[i] == doc;
      assert IdsOf(docs)[i] == id;
    }
  }

  /** The outcome of handling an event: whether it was refused, the batches still waiting, and the table. */
  datatype EventOutcome = EventOutcome(failed: bool, items: map<string, seq<Document>>, rows: Rows)

  /** An event is refused if its transaction has no batch stored, or it cannot be parsed, or does not report the batch's
      root. Otherwise the digest goes to all rows of the batch if the database takes it, and the batch is forgotten
      in any case. */
  function AfterEvent(h: Hashes, items: map<string, seq<Document>>, rows: Rows, txid: string, payload: Option<Payload>,
                      now: int, sessionOk: bool): EventOutcome
  {
    if txid !in items || payload.None? then EventOutcome(true, items, rows)
    else match DigestFrom(h, items[txid], payload.value)
      case None => EventOutcome(true, items, rows)
      case Some(digest) =>
        var updates := DigestUpdates(IdsOf(items[txid]), Proof(digest, now, txid));
        EventOutcome(false, items - {txid}, if sessionOk then Cassandra.Execute(rows, updates) else rows)
  }

  /** The row has the transaction and the time, and as digest the hash byte by byte in hexadecimal. */
  ghost predicate Proves(rows: Rows, id: string, txid: string, now: int, hash: string) {
    && id in rows && rows[id].proof.Some? && rows[id].proofStatus == Some(AlreadyProofed)
    && rows[id].proof.value.txid == txid && rows[id].proof.value.proofTime == now
    && (IsBytes(hash) ==> IsHexOf(rows[id].proof.value.blockDigest, hash))
  }

  lemma ProofReaches(rows: Rows, docs: seq<Document>, proof: Proof, hash: string)
    requires IsBytes(hash) ==> IsHexOf(proof.blockDigest, hash)
    ensures var rows' := Cassandra.Execute(rows, DigestUpdates(IdsOf(docs), proof));
            && (forall id :: id in Ids(docs) ==> Proves(rows', id, proof.txid, proof.proofTime, hash))
            && (forall id :: id !in Ids(docs) ==> RowAt(rows', id) == RowAt(rows, id))
            && (forall id :: id in Ids(docs) ==>
                  RowAt(rows', id).body == RowAt(rows, id).body && RowAt(rows', id).sign == RowAt(rows, id).sign)
  {
    forall id
      ensures var rows' := Cassandra.Execute(rows, DigestUpdates(IdsOf(docs), proof));
              && (id in Ids(docs) ==> Proves(rows', id, proof.txid, proof.proofTime, hash))
              && (id !in Ids(docs) ==> RowAt(rows', id) == RowAt(rows, id))
              && RowAt(rows', id).body == RowAt(rows, id).body && RowAt(rows', id).sign == RowAt(rows, id).sign
    {
      DigestUpdatesEffect(rows, IdsOf(docs), proof, id);
      DigestUpdatesStatus(rows, IdsOf(docs), proof, id);
      IdsOfMembers(docs, id);
    }
  }

  /** What is kept after a batch was sent to the chain: nothing new for no root, no peer, or no reply. */
  function AfterRegister(items: map<string, seq<Document>>, docs: seq<Document>, root: string, connected: bool,
                         reply: Result<string>): map<string, seq<Document>>
  {
    if root != "" && connected && reply.Ok? then items[reply.value := docs] else items
  }

  /** The batches that wait for their event. */
  class Items {
    var data: map<string, seq<Document>>

    constructor ()
      ensures data == map[]
    {
      data := map[];
    }

    method Get(key: string) returns (docs: Option<seq<Document>>)
      ensures docs == if key in data then Some(data[key]) else None
    {
      docs := if key in data then Some(data[key]) else None;
    }

    /** Setting a key that is there compares slices, which ends the program. */
    method Set(key: string, docs: seq<Document>) returns (changed: bool)
      requires key !in data
      modifies this
      ensures changed && data == old(data)[key := docs]
    {
      data := data[key := docs];
      changed := true;
    }

    method Delete(key: string)
      modifies this
      ensures data == old(data) - {key}
    {
      data := data - {key};
    }

    method Clear()
      modifies this
      ensures data == map[]
    {
      data := map[];
    }
  }

  /** The dials made to one peer, and how each ended. */
  datatype Attempt = Attempt(addr: string, dials: seq<bool>) {
    predicate Connected() {
      dials != [] && dials[|dials|-1]
    }
  }

  /** Dials until one succeeds, at most `failOver` times. */
  ghost predicate Tried(a: Attempt, failOver: int) {
    && (forall i :: 0 <= i < |a.dials| - 1 ==> !a.dials[i])
    && |a.dials| <= AtLeastZero(failOver)
    && (!a.Connected() ==> |a.dials| == AtLeastZero(failOver))
  }

  function Dials(attempts: seq<Attempt>): nat {
    if attempts == [] then 0 else Dials(attempts[..|attempts|-1]) + |attempts[|attempts|-1].dials|
  }

  /** The peers are tried in the order of the ring, each at most once, until one can be connected. */
  ghost predicate FailedOver(attempts: seq<Attempt>, peers: seq<string>, failOver: int) {
    && |attempts| <= |peers|
    && (forall i :: 0 <= i < |attempts| ==> attempts[i].addr == peers[i] && Tried(attempts[i], failOver))
    && (forall i :: 0 <= i < |attempts| - 1 ==> !attempts[i].Connected())
  }

  predicate Connected(attempts: seq<Attempt>) {
    attempts != [] && attempts[|attempts|-1].Connected()
  }

  /** Without a root nothing is asked; otherwise peers are tried until one connects or all have refused. */
  ghost predicate Requested(root: string, attempts: seq<Attempt>, peers: seq<string>, failOver: int) {
    if root == "" then attempts == []
    else FailedOver(attempts, peers, failOver) && (!Connected(attempts) ==> |attempts| == |peers|)
  }

  class BlockchainClient {
    const h: Hashes
    const items: Items
    const persister: CassandraPersister
    const peers: RoundRobin
    const failOver: int

    ghost predicate Valid()
      reads this, peers, peers.nodes
    {
      peers.Valid()
    }

    constructor (h: Hashes, persister: CassandraPersister, addrs: seq<string>, failOver: int)
      ensures Valid() && peers.Contents() == addrs && items.data == map[]
      ensures this.h == h && this.persister == persister && this.failOver == failOver
    {
      this.h, this.persister, this.failOver := h, persister, failOver;
      this.items := new Items();
      this.peers := new RoundRobin(addrs);
    }

    method GetGrpcConn(addr: string) returns (attempt: Attempt)
      ensures attempt.addr == addr && Tried(attempt, failOver)
      ensures failOver <= 0 ==> attempt.dials == []
      ensures failOver > 0 ==>
                && 1 <= |attempt.dials| <= failOver
                && (forall i :: 0 <= i < |attempt.dials| - 1 ==> !attempt.dials[i])
                && (|attempt.dials| < failOver ==> attempt.dials[|attempt.dials|-1])
    {
      attempt := Attempt(addr, []);
      var i := 0;
      while i < failOver && !attempt.Connected()
        invariant attempt.addr == addr && |attempt.dials| == i
        invariant forall j :: 0 <= j < i - 1 ==> !attempt.dials[j]
        invariant i <= AtLeastZero(failOver)
        decreases failOver - i
      {
        var dialled: bool := *;
        attempt := attempt.(dials := attempt.dials + [dialled]);
        i := i + 1;
      }
    }

    /** Chooses the next peer, dials it, and counts the peers again. */
    method TryNext(ghost all: seq<string>, ghost tried: nat) returns (attempt: Attempt, n: nat)
      requires Valid() && tried < |all| && peers.Contents() == Rotate(all, tried)
      modifies peers, peers.Repr()
      ensures Valid() && peers.Repr() == old(peers.Repr()) && peers.Contents() == Rotate(all, tried + 1)
      ensures attempt.addr == all[tried] && Tried(attempt, failOver) && n == |all|
    {
      RotateOnceMore(all, tried);
      var peer := peers.Choose();
      attempt := GetGrpcConn(peer.value);
      n := peers.Len();
    }

    /** Tries peers until one can be connected. */
    method Connect() returns (attempts: seq<Attempt>)
      requires Valid()
      modifies peers, peers.Repr()
      ensures Valid() && peers.Repr() == old(peers.Repr())
      ensures FailedOver(attempts, old(peers.Contents()), failOver)
      ensures peers.Contents() == Rotate(old(peers.Contents()), |attempts|)
      ensures !Connected(attempts) ==> |attempts| == |old(peers.Contents())|
    {
      ghost var all, nodes := peers.Contents(), peers.Repr();
      attempts := [];
      var n := peers.Len();
      assert Rotate(all, 0) == all;
      while |attempts| < n && !Connected(attempts)
        invariant Valid() && peers.Repr() == nodes && n == |all| && |attempts| <= |all|
        invariant FailedOver(attempts, all, failOver) && peers.Contents() == Rotate(all, |attempts|)
        decreases n - |attempts|
      {
        var attempt;
        ghost var tried := |attempts|;
        attempt, n := TryNext(all, tried);
        FailedOverMore(attempts, all, failOver, attempt);
        attempts := attempts + [attempt];
        assert |attempts| == tried + 1;
      }
    }

    /** Finds a peer that can be connected and puts the request to it. */
    method Execute<T>(answer: Result<T>) returns (r: Result<T>, attempts: seq<Attempt>)
      requires Valid()
      modifies peers, peers.Repr()
      ensures Valid() && peers.Repr() == old(peers.Repr())
      ensures FailedOver(attempts, old(peers.Contents()), failOver)
      ensures peers.Contents() == Rotate(old(peers.Contents()), |attempts|)
      ensures r == if Connected(attempts) then answer else Err("create grpc client conn valid")
      ensures !Connected(attempts) ==> |attempts| == |old(peers.Contents())|
      ensures |attempts| <= |old(peers.Contents())|
      ensures forall i :: 0 <= i < |attempts| ==> attempts[i].addr == old(peers.Contents())[i]
      ensures forall i :: 0 <= i < |attempts| - 1 ==> true !in attempts[i].dials
      ensures Connected(attempts) <==> exists attempt :: attempt in attempts && true in attempt.dials
    {
      attempts := Connect();
      ConnectedWhen(attempts, old(peers.Contents()), failOver);
      r := if Connected(attempts) then answer else Err("create grpc client conn valid");
    }

    /** Puts the root to the chain, and keeps the batch under the transaction that it replies. */
    method Invoke(docs: seq<Document>, reply: Result<string>) returns (attempts: seq<Attempt>)
      requires Valid() && (reply.Ok? ==> reply.value !in items.data)
      modifies peers, peers.Repr(), items
      ensures Valid() && FailedOver(attempts, old(peers.Contents()), failOver)
      ensures !Connected(attempts) ==> |attempts| == |old(peers.Contents())|
      ensures Connected(attempts) && reply.Ok? ==> items.data == old(items.data)[reply.value := docs]
      ensures !Connected(attempts) || reply.Err? ==> items.data == old(items.data)
    {
      var r;
      r, attempts := Execute(reply);
      if r.Ok? {
        var _ := items.Set(r.value, docs);
      }
    }

    /** Registers the root of a batch. A reply that does not arrive leaves no trace here, even if the chain has
        registered the root. */
    method RegisterProof(docs: seq<Document>, reply: Result<string>) returns (root: string, attempts: seq<Attempt>)
      requires Valid() && (reply.Ok? ==> reply.value !in items.data)
      modifies peers, peers.Repr(), items
      ensures Valid() && root == RootOf(h.sha256, docs)
      ensures Requested(root, attempts, old(peers.Contents()), failOver)
      ensures items.data == AfterRegister(old(items.data), docs, root, Connected(attempts), reply)
      ensures root != "" && Connected(attempts) && reply.Ok? ==> items.data == old(items.data)[reply.value := docs]
      ensures root == "" || !Connected(attempts) || reply.Err? ==> items.data == old(items.data)
    {
      attempts := [];
      root := FormatDocs(h.sha256, docs);
      if root == "" {
        return;
      }
      attempts := Invoke(docs, reply);
    }

    /** Asks the chain about the root recomputed from documents. */
    method VerifyDocs(docs: seq<Document>, reply: Result<map<string, bool>>)
      returns (valid: bool, attempts: seq<Attempt>)
      requires Valid()
      modifies peers, peers.Repr()
      ensures Valid() && Requested(RootOf(h.sha256, docs), attempts, old(peers.Contents()), failOver)
      ensures var root := RootOf(h.sha256, docs);
              valid <==> root != "" && Connected(attempts) && reply.Ok? && root in reply.value && reply.value[root]
    {
      attempts := [];
      var formatedDocs := FormatDocs(h.sha256, docs);
      if formatedDocs == "" {
        return false, [];
      }
      var r;
      r, attempts := Execute(reply);
      if r.Err? {
        return false, attempts;
      }
      valid := formatedDocs in r.value && r.value[formatedDocs];
    }

    method DocIds(docs: seq<Document>) returns (docIds: array<string>)
      ensures fresh(docIds) && docIds[..] == IdsOf(docs)
    {
      docIds := new string[|docs|];
      for idx := 0 to |docs|
        invariant forall i :: 0 <= i < idx ==> docIds[i] == docs[i].id
      {
        docIds[idx] := docs[idx].id;
      }
    }

    /** Handles an event from the chain. Once the digest is known, the batch is forgotten
        whether or not the database took the update. */
    method InvokeCompleted(txid: string, payload: Option<Payload>, now: int, sessionOk: bool) returns (failed: bool)
      modifies items, persister
      ensures EventOutcome(failed, items.data, persister.rows)
           == AfterEvent(h, old(items.data), old(persister.rows), txid, payload, now, sessionOk)
      ensures failed <==> txid !in old(items.data) || payload.None?
                          || RootOf(h.sha256, old(items.data)[txid]) !in payload.value
      ensures items.data == if failed then old(items.data) else old(items.data) - {txid}
      ensures failed || !sessionOk ==> persister.rows == old(persister.rows)
      ensures !failed && sessionOk ==>
                (var docs := old(items.data)[txid];
                 var entry := payload.value[RootOf(h.sha256, docs)];
                 && (forall id :: id in Ids(docs) ==> Proves(persister.rows, id, txid, now, h.sha3(entry)))
                 && (forall id :: id !in Ids(docs) ==> RowAt(persister.rows, id) == RowAt(old(persister.rows), id))
                 && (forall id :: id in Ids(docs) ==>
                       RowAt(persister.rows, id).body == RowAt(old(persister.rows), id).body
                       && RowAt(persister.rows, id).sign == RowAt(old(persister.rows), id).sign))
    {
      var obj := items.Get(txid);
      if obj.None? || payload.None? {
        return true;
      }
      var docs := obj.value;
      var root := FormatDocs(h.sha256, docs);
      if root !in payload.value {
        return true;
      }
      var proofKey := ProofKey(h, payload.value[root]);
      ProofKeyIs(h, payload.value[root]);
      var docIds := DocIds(docs);
      var _ := persister.SetDocsBlockDigest(docIds[..], proofKey, txid, now, sessionOk);
      if sessionOk {
        ProofReaches(old(persister.rows), docs, Proof(proofKey, now, txid), h.sha3(payload.value[root]));
      }
      items.Delete(txid);
      failed := false;
    }
  }

  /** Only the last dial to the last peer tried can have succeeded. */
  lemma ConnectedWhen(attempts: seq<Attempt>, peers: seq<string>, failOver: int)
    requires FailedOver(attempts, peers, failOver)
    ensures Connected(attempts) <==> exists attempt :: attempt in attempts && true in attempt.dials
    ensures forall i :: 0 <= i < |attempts| - 1 ==> true !in attempts[i].dials
  {
    forall i | 0 <= i < |attempts| ensures true in attempts[i].dials <==> attempts[i].Connected() {
      assert Tried(attempts[i], failOver);
    }
    if Connected(attempts) {
      assert attempts[|attempts|-1] in attempts;
    }
  }

  lemma FailedOverMore(attempts: seq<Attempt>, peers: seq<string>, failOver: int, attempt: Attempt)
    requires FailedOver(attempts, peers, failOver) && !Connected(attempts) && |attempts| < |peers|
    requires attempt.addr == peers[|attempts|] && Tried(attempt, failOver)
    ensures FailedOver(attempts + [attempt], peers, failOver)
  {
  }

  lemma OneMoreTimes(m: nat, k: nat)
    ensures (m + 1) * k == m * k + k
  {
  }

  lemma {:induction false} Times(m: nat, n: nat, k: nat)
    requires m <= n
    ensures m * k <= n * k
    decreases n
  {
    if m < n {
      Times(m, n - 1, k);
      OneMoreTimes(n - 1, k);
    }
  }

  lemma {:induction false} DialsOfAttempts(attempts: seq<Attempt>, k: nat)
    requires forall i :: 0 <= i < |attempts| ==> |attempts[i].dials| <= k
    ensures Dials(attempts) <= |attempts| * k
  {
    if attempts != [] {
      var n := |attempts| - 1;
      DialsOfAttempts(attempts[..n], k);
      OneMoreTimes(n, k);
    }
  }

  /** However the dials end, there are at most `failOver` of them for each peer. */
  lemma DialsBounded(attempts: seq<Attempt>, peers: seq<string>, failOver: int)
    requires FailedOver(attempts, peers, failOver)
    ensures Dials(attempts) <= |peers| * AtLeastZero(failOver)
  {
    DialsOfAttempts(attempts, AtLeastZero(failOver));
    Times(|attempts|, |peers|, AtLeastZero(failOver));
  }

  // ---------------------------------------------------------------- events

  datatype Event =
    | ChaincodeEvent(chaincodeId: string, eventName: string, txid: string, payload: Option<Payload>)
    | OtherEvent

  /** How a stream ends: the hub closes it, or it breaks. */
  datatype End = Closed | Broken

  predicate Interesting(e: Event, chaincodeId: string) {
    e.ChaincodeEvent? && e.chaincodeId == chaincodeId && e.eventName == "invoke_completed"
  }

  function FirstUninteresting(stream: seq<Event>, chaincodeId: string): (n: nat)
    ensures n <= |stream| && (n < |stream| ==> !Interesting(stream[n], chaincodeId))
    ensures forall i :: 0 <= i < n ==> Interesting(stream[i], chaincodeId)
  {
    if stream == [] || !Interesting(stream[0], chaincodeId) then 0 else
    var n := FirstUninteresting(stream[1..], chaincodeId);
    assert forall i :: 1 <= i < 1 + n ==> stream[i] == stream[1..][i-1];
    1 + n
  }

  /** Hands events to the adapter until the stream ends or the adapter is not interested in one. */
  method ProcessEvents(stream: seq<Event>, end: End, chaincodeId: string) returns (ecc: seq<Event>, failed: bool)
    ensures ecc == stream[..FirstUninteresting(stream, chaincodeId)]
    ensures failed <==> end.Broken? && |ecc| == |stream|
    ensures ecc <= stream
    ensures forall e :: e in ecc ==>
              e.ChaincodeEvent? && e.chaincodeId == chaincodeId && e.eventName == "invoke_completed"
    ensures |ecc| < |stream| ==>
              var next := stream[|ecc|];
              next.OtherEvent? || next.chaincodeId != chaincodeId || next.eventName != "invoke_completed"
  {
    ecc := [];
    for i := 0 to |stream|
      invariant ecc == stream[..i] && forall j :: 0 <= j < i ==> Interesting(stream[j], chaincodeId)
    {
      if !Interesting(stream[i], chaincodeId) {
        return ecc, false;
      }
      ecc := ecc + [stream[i]];
    }
    failed := end.Broken?;
  }

  /** All interesting events of a stream are handled exactly if none comes after an uninteresting one. */
  lemma EventsLostWhen(stream: seq<Event>, chaincodeId: string)
    ensures (forall i ::
               FirstUninteresting(stream, chaincodeId) <= i < |stream| ==> !Interesting(stream[i], chaincodeId))
       <==> (forall i, j :: 0 <= i < j < |stream| && !Interesting(stream[i], chaincodeId)
                            ==> !Interesting(stream[j], chaincodeId))
  {
  }
}
