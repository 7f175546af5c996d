/** The delivery protocol over the real encodings: what its theorems say once ids, keys and digests are hashes. */
module DeliveryBinding {
  import opened Types
  import opened WireEncoding
  import opened Delivery
  import opened Binding
  import opened DeliveryTheorems
  import opened DeliveryRuns

  /** Two requests that the digests compared by `Enqueue` cannot tell apart. */
  ghost predicate Confused(sha: Bytes -> Digest, d: Desired, f: Desired) {
    || Collides(sha, IdentityBytes(d.identity), IdentityBytes(f.identity))
    || Collides(sha, IncarnationPreimage(d.uid), IncarnationPreimage(f.uid))
    || HidesAsNone(sha, d.uid, f.uid)
  }

  /** Log position `p` is a record of the workload of `d` with its fields, signed over the envelope of exactly `d`. */
  ghost predicate RecordedAs(sha: Bytes -> Digest, fingerprint: Digest, verify: (Digest, Bytes) -> bool,
                             log: seq<Entry>, p: nat, id: Digest, d: Desired) {
    && p < |log| && log[p].id == id && Valid(d.identity) && id == sha(IdentityBytes(d.identity))
    && log[p].key.version == d.version && log[p].key.configHash == d.configHash && log[p].key.fingerprint == fingerprint
    && log[p].key.incarnation == (if d.uid == [] then ZeroDigest else sha(IncarnationDomain + d.uid))
    && log[p].sig != [] && verify(sha(Preimage(d)), log[p].sig)
  }

  /**
    When the desired key of a workload is confirmed, the log has a record whose signature verifies over the
    envelope of exactly the desired revision; or a request `f` made earlier is confused with it.
   */
  lemma ConfirmedIsDesired(sha: Bytes -> Digest, fingerprint: Digest, verify: (Digest, Bytes) -> bool,
                           states: seq<Sys>, events: seq<Event>, k: nat, id: Digest) returns (p: nat, f: Desired)
    requires Run(PublisherEnv(sha, fingerprint, verify), states, events) && k < |states|
    requires id in states[k].mem.state && !Pending(states[k], id)
    ensures WorkloadID(sha, states[k].mem.state[id].desired.identity) == Some(id)
    ensures
      var d := states[k].mem.state[id].desired;
      || RecordedAs(sha, fingerprint, verify, states[k].chain.log, p, id, d)
      || (RecordedAs(sha, fingerprint, verify, states[k].chain.log, p, id, f) && Rev(id, f) in states[k].revs
          && Confused(sha, d, f))
  {
    var env := PublisherEnv(sha, fingerprint, verify);
    AttemptOwnership(env, states, events, k, id);
    var n: nat;
    p, n := ConfirmedIsLogged(env, states, events, k, id);
    f := states[k].revs[n - 1].desired;
    assert states[k].revs[n - 1] == Rev(id, f);
    SameKeySameRevision(sha, fingerprint, states[k].mem.state[id].desired, f);
  }

  /**
    If the key signed only `signed`, what is confirmed for a workload is a revision that was signed as exactly
    that envelope, short of a collision.
   */
  lemma ConfirmedWasSigned(sha: Bytes -> Digest, fingerprint: Digest, verify: (Digest, Bytes) -> bool, signed: set<Message>,
                           states: seq<Sys>, events: seq<Event>, k: nat, id: Digest)
    requires Run(PublisherEnv(sha, fingerprint, verify), states, events) && k < |states|
    requires id in states[k].mem.state && !Pending(states[k], id) && OnlySigned(sha, verify, signed)
    ensures
      var d := states[k].mem.state[id].desired;
      || OfV2(d) in signed || CollidesWithSigned(sha, signed, OfV2(d))
      || exists f :: Rev(id, f) in states[k].revs && Confused(sha, d, f)
  {
    var d := states[k].mem.state[id].desired;
    var p, f := ConfirmedIsDesired(sha, fingerprint, verify, states, events, k, id);
    if RecordedAs(sha, fingerprint, verify, states[k].chain.log, p, id, d) {
      VerifiedWasSigned(sha, verify, signed, OfV2(d), states[k].chain.log[p].sig);
    }
  }

  /** Any two configurations of a workload that can be signed make a scene for the runs of DeliveryRuns. */
  lemma AnyTwoConfigurations(sha: Bytes -> Digest, fingerprint: Digest, verify: (Digest, Bytes) -> bool,
                             d: Desired, configHash: Digest, sigA: Bytes, sigB: Bytes)
    requires Valid(d.identity) && d.version != 0 && configHash != d.configHash
    requires sigA != [] && verify(sha(Preimage(d)), sigA)
    requires sigB != [] && verify(sha(Preimage(d.(configHash := configHash))), sigB)
    ensures Scene(PublisherEnv(sha, fingerprint, verify), sha(IdentityBytes(d.identity)),
                  d, d.(configHash := configHash), sigA, sigB).Apt()
  {
  }
}
