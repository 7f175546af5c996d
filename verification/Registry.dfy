/** contracts/contracts/AttestationRegistryV2.sol: latest-only storage beside a complete event log. */
module Registry {
  import opened Types
  import Delivery

  type Address = nat

  /** A storage record; `recorded` is the contract's `exists`. */
  datatype Attestation = Attestation(
    configHash: Digest,
    signature: Bytes,
    signerFingerprint: Digest,
    incarnation: Digest,
    blockTimestamp: nat,
    hashVersion: Version,
    recorded: bool)

  /** What an unset slot of a Solidity mapping reads back as. */
  const Zero := Attestation(ZeroDigest, [], ZeroDigest, ZeroDigest, 0, 0, false)

  datatype Published = Published(
    workloadId: Digest,
    hashVersion: Version,
    configHash: Digest,
    incarnation: Digest,
    signerFingerprint: Digest,
    signature: Bytes,
    blockTimestamp: nat)

  /** One transaction calling `publish`, with its sender and block time. */
  datatype Call = Call(
    sender: Address,
    workloadId: Digest,
    hashVersion: Version,
    configHash: Digest,
    incarnation: Digest,
    signature: Bytes,
    signerFingerprint: Digest,
    now: nat)

  datatype Revert = NotPublisher | InvalidHashVersion | EmptySignature

  datatype Storage = Storage(latest: map<Digest, Attestation>, log: seq<Published>)

  const Empty := Storage(map[], [])

  predicate Accepted(publisher: Address, c: Call) {
    c.sender == publisher && c.hashVersion != 0 && c.signature != []
  }

  function EventOf(c: Call): Published {
    Published(c.workloadId, c.hashVersion, c.configHash, c.incarnation, c.signerFingerprint, c.signature,
              c.now % 0x1_0000_0000_0000_0000)
  }

  function RecordOf(e: Published): Attestation {
    Attestation(e.configHash, e.signature, e.signerFingerprint, e.incarnation, e.blockTimestamp, e.hashVersion, true)
  }

  function Publish(publisher: Address, s: Storage, c: Call): Storage {
    if Accepted(publisher, c) then
      Storage(s.latest[c.workloadId := Attestation(c.configHash, c.signature, c.signerFingerprint, c.incarnation,
                                                   c.now % 0x1_0000_0000_0000_0000, c.hashVersion, true)],
              s.log + [EventOf(c)])
    else
      s
  }

  function Read(s: Storage, id: Digest): Attestation {
    if id in s.latest then s.latest[id] else Zero
  }

  /** The event carries the call, under the block time cut to 64 bits. */
  predicate Carries(e: Published, c: Call) {
    && e.workloadId == c.workloadId && e.hashVersion == c.hashVersion && e.configHash == c.configHash
    && e.incarnation == c.incarnation && e.signerFingerprint == c.signerFingerprint && e.signature == c.signature
    && e.blockTimestamp == c.now % 0x1_0000_0000_0000_0000
  }

  /** ... and the record holds it. */
  predicate Stores(a: Attestation, c: Call) {
    && a.recorded && a.hashVersion == c.hashVersion && a.configHash == c.configHash
    && a.incarnation == c.incarnation && a.signerFingerprint == c.signerFingerprint && a.signature == c.signature
    && a.blockTimestamp == c.now % 0x1_0000_0000_0000_0000
  }

  class AttestationRegistryV2 {
    const publisher: Address
    var latest: map<Digest, Attestation>
    var log: seq<Published>

    ghost function Contents(): Storage
      reads this
    {
      Storage(latest, log)
    }

    constructor (publisher: Address)
      requires publisher != 0
      ensures this.publisher == publisher && Contents() == Empty
    {
      this.publisher := publisher;
      latest, log := map[], [];
    }

    method PublishCall(c: Call) returns (r: Result<(), Revert>)
      modifies this
      ensures Contents() == Publish(publisher, old(Contents()), c)
      ensures r.Ok? <==> Accepted(publisher, c)
      ensures r == Err(NotPublisher) <==> c.sender != publisher
      ensures r == Err(InvalidHashVersion) <==> c.sender == publisher && c.hashVersion == 0
      ensures r == Err(EmptySignature) <==> c.sender == publisher && c.hashVersion != 0 && c.signature == []
      ensures r.Err? ==> latest == old(latest) && log == old(log)
      ensures r.Ok? ==>
                && |log| == |old(log)| + 1 && log[..|old(log)|] == old(log) && Carries(log[|old(log)|], c)
                && c.workloadId in latest && Stores(latest[c.workloadId], c)
                && latest - {c.workloadId} == old(latest) - {c.workloadId}
    {
      if c.sender != publisher {
        return Err(NotPublisher);
      }
      if c.hashVersion == 0 {
        return Err(InvalidHashVersion);
      }
      if c.signature == [] {
        return Err(EmptySignature);
      }
      var ts := c.now % 0x1_0000_0000_0000_0000;
      latest := latest[c.workloadId := Attestation(c.configHash, c.signature, c.signerFingerprint, c.incarnation,
                                                   ts, c.hashVersion, true)];
      log := log + [Published(c.workloadId, c.hashVersion, c.configHash, c.incarnation, c.signerFingerprint,
                              c.signature, ts)];
      return Ok(());
    }

    method GetLatest(id: Digest) returns (a: Attestation)
      ensures a == Read(Contents(), id)
    {
      if id in latest {
        return latest[id];
      }
      return Zero;
    }
  }

  // ---------- any sequence of calls, by any senders ----------

  function After(publisher: Address, calls: seq<Call>): Storage {
    if calls == [] then Empty
    else Publish(publisher, After(publisher, calls[..|calls| - 1]), calls[|calls| - 1])
  }

  /** The last logged event of a workload, as a record; all zero if there is none. */
  function LastLogged(log: seq<Published>, id: Digest): Attestation {
    if log == [] then Zero
    else if log[|log| - 1].workloadId == id then RecordOf(log[|log| - 1])
    else LastLogged(log[..|log| - 1], id)
  }

  lemma LastLoggedSnoc(log: seq<Published>, e: Published, id: Digest)
    ensures LastLogged(log + [e], id) == if e.workloadId == id then RecordOf(e) else LastLogged(log, id)
  {
    assert (log + [e])[..|log|] == log;
  }

  /** The log has an event of the workload. */
  ghost predicate Mentions(log: seq<Published>, id: Digest) {
    exists k :: 0 <= k < |log| && log[k].workloadId == id
  }

  lemma MentionsSnoc(log: seq<Published>, e: Published, id: Digest)
    ensures Mentions(log + [e], id) <==> e.workloadId == id || Mentions(log, id)
  {
    var t := log + [e];
    assert t[|log|] == e;
    if Mentions(log, id) {
      var k :| 0 <= k < |log| && log[k].workloadId == id;
      assert t[k] == log[k];
    }
  }

  /** A slot was written exactly if its version, or its signature, is not zero; otherwise it is all zero. */
  predicate Consistent(a: Attestation) {
    (a.recorded <==> a.hashVersion != 0) && (a.recorded <==> a.signature != []) && (!a.recorded ==> a == Zero)
  }

  lemma PublishReads(publisher: Address, s: Storage, c: Call, id: Digest)
    ensures Read(Publish(publisher, s, c), id)
         == if Accepted(publisher, c) && c.workloadId == id then RecordOf(EventOf(c)) else Read(s, id)
  {
  }

  /** Storage is what the log says, and a slot was written exactly if the log mentions it. */
  lemma {:induction false} StorageRefinesLog(publisher: Address, calls: seq<Call>, id: Digest)
    ensures
      var s := After(publisher, calls);
      var a := Read(s, id);
      a == LastLogged(s.log, id) && Consistent(a) && (a.recorded <==> Mentions(s.log, id))
  {
    if calls != [] {
      var n := |calls| - 1;
      var before, c := After(publisher, calls[..n]), calls[n];
      StorageRefinesLog(publisher, calls[..n], id);
      PublishReads(publisher, before, c, id);
      if Accepted(publisher, c) {
        LastLoggedSnoc(before.log, EventOf(c), id);
        MentionsSnoc(before.log, EventOf(c), id);
      }
    }
  }

  /** Call `k` is the last accepted one for the workload. */
  ghost predicate LastAcceptedFor(publisher: Address, calls: seq<Call>, id: Digest, k: nat) {
    && k < |calls| && calls[k].workloadId == id
    && calls[k].sender == publisher && calls[k].hashVersion != 0 && calls[k].signature != []
    && forall m :: k < m < |calls| && calls[m].workloadId == id ==>
         calls[m].sender != publisher || calls[m].hashVersion == 0 || calls[m].signature == []
  }

  /** A slot holds the last accepted call for it, field by field, and reads all zero if there was none. */
  lemma {:induction false} StorageIsLastCall(publisher: Address, calls: seq<Call>, id: Digest)
    ensures
      var a := Read(After(publisher, calls), id);
      if a.recorded then exists k: nat :: LastAcceptedFor(publisher, calls, id, k) && Stores(a, calls[k])
      else
        && a == Attestation(ZeroDigest, [], ZeroDigest, ZeroDigest, 0, 0, false)
        && !exists k: nat :: LastAcceptedFor(publisher, calls, id, k)
  {
    if calls != [] {
      var n := |calls| - 1;
      var c := calls[n];
      StorageIsLastCall(publisher, calls[..n], id);
      PublishReads(publisher, After(publisher, calls[..n]), c, id);
      if Accepted(publisher, c) && c.workloadId == id {
        assert LastAcceptedFor(publisher, calls, id, n);
      } else {
        LastStays(publisher, calls, id);
      }
    }
  }

  /** A call that is refused or for another slot leaves the last accepted one. */
  lemma LastStays(publisher: Address, calls: seq<Call>, id: Digest)
    requires calls != [] && !(Accepted(publisher, calls[|calls| - 1]) && calls[|calls| - 1].workloadId == id)
    ensures forall k: nat :: LastAcceptedFor(publisher, calls, id, k) <==> LastAcceptedFor(publisher, calls[..|calls| - 1], id, k)
  {
  }

  /** The accepted calls, in order. */
  function AcceptedCalls(publisher: Address, calls: seq<Call>): seq<Call> {
    if calls == [] then []
    else
      AcceptedCalls(publisher, calls[..|calls| - 1])
      + (if Accepted(publisher, calls[|calls| - 1]) then [calls[|calls| - 1]] else [])
  }

  /** The log is complete: one event per accepted call, in order, carrying the whole call. */
  lemma {:induction false} LogIsComplete(publisher: Address, calls: seq<Call>)
    ensures
      var accepted := AcceptedCalls(publisher, calls);
      After(publisher, calls).log == seq(|accepted|, i requires 0 <= i < |accepted| => EventOf(accepted[i]))
    ensures
      var accepted, log := AcceptedCalls(publisher, calls), After(publisher, calls).log;
      |log| == |accepted| && forall i :: 0 <= i < |log| ==> Carries(log[i], accepted[i])
  {
    if calls != [] {
      LogIsComplete(publisher, calls[..|calls| - 1]);
    }
  }

  // ---------- the reader's view used by the delivery protocol ----------

  /** A log event as the delivery protocol sees it (`OnChain` plus the workload id). */
  function EntryOf(e: Published): Delivery.Entry {
    Delivery.Entry(e.workloadId, RevisionKey(e.hashVersion, e.configHash, e.incarnation, e.signerFingerprint), e.signature, None)
  }

  function EntriesOf(log: seq<Published>): (r: seq<Delivery.Entry>)
    ensures |r| == |log|
  {
    seq(|log|, i requires 0 <= i < |log| => EntryOf(log[i]))
  }

  /** `Latest`: the seven values of `getLatest` mapped onto the publisher's view. */
  function OnChain(a: Attestation, id: Digest): Option<Delivery.Entry> {
    if !a.recorded then None
    else Some(Delivery.Entry(id, RevisionKey(a.hashVersion, a.configHash, a.incarnation, a.signerFingerprint), a.signature, None))
  }

  lemma {:induction false} LatestIsLastLogged(log: seq<Published>, id: Digest)
    ensures Delivery.LatestOf(EntriesOf(log), id) == OnChain(LastLogged(log, id), id)
  {
    if log != [] {
      LatestIsLastLogged(log[..|log| - 1], id);
      assert EntriesOf(log)[..|log| - 1] == EntriesOf(log[..|log| - 1]);
    }
  }

  /** What the protocol reads as the latest record is what the contract's storage returns. */
  lemma ProtocolReadsStorage(publisher: Address, calls: seq<Call>, id: Digest)
    ensures
      var s := After(publisher, calls);
      Delivery.LatestOf(EntriesOf(s.log), id) == OnChain(Read(s, id), id)
    ensures
      var a, latest := Read(After(publisher, calls), id), Delivery.LatestOf(EntriesOf(After(publisher, calls).log), id);
      && (latest.Some? <==> a.recorded)
      && (latest.Some? ==>
            && latest.value.id == id && latest.value.sig == a.signature && latest.value.key.version == a.hashVersion
            && latest.value.key.configHash == a.configHash && latest.value.key.incarnation == a.incarnation
            && latest.value.key.fingerprint == a.signerFingerprint)
  {
    StorageRefinesLog(publisher, calls, id);
    LatestIsLastLogged(After(publisher, calls).log, id);
  }
}
