/**
  The v1 path end to end, over the whole life of the signing key: reconciles enqueue jobs, the publisher signs
  them, the process restarts, anything at all may be in the registry, and `pod-verify` decides.
 */
module Verify {
  import opened Types
  import opened Kube
  import opened NormalizeV1
  import opened Controller
  import opened Binding

  // ---------- cmd/verify: the decision procedure ----------

  /** The v1 registry's record; `recorded` is its `exists`. */
  datatype Record = Record(
    configHash: Digest, signature: Bytes, signerFingerprint: Digest, hashVersion: Version, recorded: bool)

  /** Everything `runVerify` reads, each of which may fail to be read. */
  datatype Inputs = Inputs(
    endpointsGiven: bool, live: Option<Deployment>, record: Option<Record>, keyDER: Option<Bytes>)

  datatype Verdict = Pass | Fail | Error

  /** A parsed public key checks signatures; unparseable bytes give none. */
  type KeyParser = Bytes -> Option<(Digest, Bytes) -> bool>

  function RunVerify(hash: HashFn, sha: Bytes -> Digest, parse: KeyParser, i: Inputs): Verdict {
    if !i.endpointsGiven then Error
    else if i.live.None? then Error
    else if i.record.None? then Error
    else
      var att := i.record.value;
      if !att.recorded then Fail
      else if !Supported(att.hashVersion) then Error
      else
        var local := hash(att.hashVersion, i.live.value);
        if local.None? then Error
        else if local.value != att.configHash then Fail
        else if i.keyDER.None? then Error
        else if sha(i.keyDER.value) != att.signerFingerprint then Fail
        else
          var key := parse(i.keyDER.value);
          if key.None? then Error
          else if !key.value(SigningDigestV1(sha, att.hashVersion, local.value), att.signature) then Fail
          else Pass
  }

  // ---------- the operator's side ----------

  /**
    The reconciler's cache and the jobs queued or in backoff, which a restart loses; and, over the life of the
    key, every message KMS signed and what was observed.
   */
  datatype Operator = Operator(cache: Cache, pending: set<Job>, signed: set<Message>, obs: seq<Observation>)

  /** `SignEnvelope` is the v2 publisher's use of the same key. */
  datatype Event =
    | Observe(o: Observation)
    | Work(job: Job, signedOk: bool, publishedOk: bool)
    | SignEnvelope(envelope: Desired)
    | Restart

  const Unused := Operator(NoCache, {}, {}, [])

  /** A job newly enqueued by a reconcile. */
  predicate Enqueued(before: Cache, after: Cache, j: Job) {
    |before.jobs| < |after.jobs| && j in after.jobs[|before.jobs|..]
  }

  /** A reconcile, or one pass of `processNext`: a job leaves the queue only when it was signed and published. */
  predicate Step(hash: HashFn, text: TextHash, s: Operator, e: Event, s': Operator) {
    match e
    case Observe(o) =>
      var cache := Reconciled(hash, s.cache, o.id, o.read);
      Named(text, o) && s' == Operator(cache, s.pending + (set j | j in cache.jobs && Enqueued(s.cache, cache, j)), s.signed, s.obs + [o])
    case Work(job, signedOk, publishedOk) =>
      && job in s.pending
      && s' == s.(pending := if signedOk && publishedOk then s.pending - {job} else s.pending,
                  signed := if signedOk then s.signed + {OfV1(job.version, job.configHash)} else s.signed)
    case SignEnvelope(envelope) => Signable(OfV2(envelope)) && s' == s.(signed := s.signed + {OfV2(envelope)})
    case Restart => s' == s.(cache := NoCache, pending := {})
  }

  /** The key's whole history, over any number of processes. */
  ghost predicate Run(hash: HashFn, text: TextHash, states: seq<Operator>, events: seq<Event>) {
    && |states| == |events| + 1 && states[0] == Unused
    && forall k {:trigger events[k]} :: 0 <= k < |events| ==> Step(hash, text, states[k], events[k], states[k + 1])
  }

  // ---------- every signature goes back to an observation ----------

  /** The latest spec was observed, and every replica count is the wanted one. */
  predicate RolledOut(d: Deployment) {
    && d.status.observedGeneration >= d.generation
    && (d.replicas.Some? ==> d.status.updated == d.replicas.value)
    && (d.replicas.None? ==> d.status.updated == 1)
    && d.status.ready == d.status.updated && d.status.available == d.status.updated && d.status.total == d.status.updated
  }

  /** The `n`th observation was of a converged Deployment with this config hash under this version. */
  ghost predicate Observed(hash: HashFn, obs: seq<Observation>, n: nat, v: Version, value: Digest) {
    && n < |obs| && obs[n].read.Found? && RolledOut(obs[n].read.d)
    && v == 1 && hash(v, obs[n].read.d) == Some(value)
  }

  ghost predicate WasObserved(hash: HashFn, obs: seq<Observation>, v: Version, value: Digest) {
    exists n :: Observed(hash, obs, n, v, value)
  }

  ghost predicate Sound(hash: HashFn, text: TextHash, s: Operator) {
    && (forall n :: 0 <= n < |s.obs| ==> Named(text, s.obs[n]))
    && (forall j :: j in s.pending ==> WasObserved(hash, s.obs, j.version, j.configHash))
    && (forall m :: m in s.signed && m.OfV1? ==> WasObserved(hash, s.obs, m.version, m.configHash))
  }

  lemma ObservedGrows(hash: HashFn, obs: seq<Observation>, o: Observation, v: Version, value: Digest)
    requires WasObserved(hash, obs, v, value)
    ensures WasObserved(hash, obs + [o], v, value)
  {
    var n :| Observed(hash, obs, n, v, value);
    assert Observed(hash, obs + [o], n, v, value);
  }

  /** A job a reconcile enqueues is for what it just saw. */
  lemma EnqueuedIsObserved(hash: HashFn, obs: seq<Observation>, c: Cache, o: Observation, j: Job)
    requires Enqueued(c, Reconciled(hash, c, o.id, o.read), j)
    ensures WasObserved(hash, obs + [o], j.version, j.configHash)
  {
    assert Observed(hash, obs + [o], |obs|, j.version, j.configHash);
  }

  lemma SoundObserve(hash: HashFn, text: TextHash, s: Operator, o: Observation, s': Operator)
    requires Sound(hash, text, s) && Step(hash, text, s, Observe(o), s')
    ensures Sound(hash, text, s')
  {
    forall j | j in s'.pending
      ensures WasObserved(hash, s'.obs, j.version, j.configHash)
    {
      if j in s.pending {
        ObservedGrows(hash, s.obs, o, j.version, j.configHash);
      } else {
        EnqueuedIsObserved(hash, s.obs, s.cache, o, j);
      }
    }
    forall m | m in s'.signed && m.OfV1?
      ensures WasObserved(hash, s'.obs, m.version, m.configHash)
    {
      ObservedGrows(hash, s.obs, o, m.version, m.configHash);
    }
  }

  lemma {:induction false} SoundAt(hash: HashFn, text: TextHash, states: seq<Operator>, events: seq<Event>, k: nat)
    requires Run(hash, text, states, events) && k < |states|
    ensures Sound(hash, text, states[k])
  {
    if k != 0 {
      SoundAt(hash, text, states, events, k - 1);
      assert Step(hash, text, states[k - 1], events[k - 1], states[k]);
      if events[k - 1].Observe? {
        SoundObserve(hash, text, states[k - 1], events[k - 1].o, states[k]);
      }
    }
  }

  /** Only this operator uses the key: whatever verifies under it, KMS signed for one of its processes. */
  ghost predicate OnlyOperatorSigns(sha: Bytes -> Digest, parse: KeyParser, der: Bytes, s: Operator) {
    parse(der).Some? ==> OnlySigned(sha, parse(der).value, s.signed)
  }

  /** The checks, all at once: what a PASS requires of the record, the live Deployment and the key. */
  predicate Checks(hash: HashFn, sha: Bytes -> Digest, parse: KeyParser, i: Inputs) {
    && i.endpointsGiven && i.live.Some? && i.record.Some? && i.keyDER.Some?
    && var att := i.record.value;
       && att.recorded && (att.hashVersion == 1 || att.hashVersion == 2)
       && hash(att.hashVersion, i.live.value) == Some(att.configHash)
       && sha(i.keyDER.value) == att.signerFingerprint
       && parse(i.keyDER.value).Some?
       && parse(i.keyDER.value).value(SigningDigestV1(sha, att.hashVersion, att.configHash), att.signature)
  }

  /**
    What is against the live Deployment or the record, where everything needed to say so was read: no record, another
    hash, another key, or a signature that does not verify.
   */
  predicate Refuted(hash: HashFn, sha: Bytes -> Digest, parse: KeyParser, i: Inputs) {
    && i.endpointsGiven && i.live.Some? && i.record.Some?
    && var att := i.record.value;
       || !att.recorded
       || (&& (att.hashVersion == 1 || att.hashVersion == 2) && hash(att.hashVersion, i.live.value).Some?
           && (|| hash(att.hashVersion, i.live.value) != Some(att.configHash)
               || (i.keyDER.Some? && sha(i.keyDER.value) != att.signerFingerprint)
               || (&& i.keyDER.Some? && parse(i.keyDER.value).Some?
                   && !parse(i.keyDER.value).value(SigningDigestV1(sha, att.hashVersion, att.configHash), att.signature))))
  }

  /** A FAIL is given exactly when something is against it, and an error exactly when nothing can be said. */
  lemma FailIffRefuted(hash: HashFn, sha: Bytes -> Digest, parse: KeyParser, i: Inputs)
    ensures RunVerify(hash, sha, parse, i) == Fail <==> Refuted(hash, sha, parse, i)
    ensures RunVerify(hash, sha, parse, i) == Error <==> !Checks(hash, sha, parse, i) && !Refuted(hash, sha, parse, i)
  {
  }

  /** A PASS is given exactly when every check holds, and a version this build does not know is never more than an error. */
  lemma PassIffChecks(hash: HashFn, sha: Bytes -> Digest, parse: KeyParser, i: Inputs)
    ensures RunVerify(hash, sha, parse, i) == Pass <==> Checks(hash, sha, parse, i)
    ensures i.record.Some? && i.record.value.recorded && i.record.value.hashVersion != 1 && i.record.value.hashVersion != 2 ==>
              RunVerify(hash, sha, parse, i) == Error
  {
  }

  /**
    Whatever the registry holds, and however often the operator restarted, a PASS goes back to an earlier
    reconcile that saw a converged Deployment with that config hash under that same version; or the signed
    preimage collides with one that was signed.
   */
  lemma PassIsAuthentic(hash: HashFn, text: TextHash, sha: Bytes -> Digest, parse: KeyParser,
                        states: seq<Operator>, events: seq<Event>, k: nat, i: Inputs)
    requires Run(hash, text, states, events) && k < |states|
    requires RunVerify(hash, sha, parse, i) == Pass && OnlyOperatorSigns(sha, parse, i.keyDER.value, states[k])
    ensures
      var att := i.record.value;
      || WasObserved(hash, states[k].obs, att.hashVersion, att.configHash)
      || CollidesWithSigned(sha, states[k].signed, OfV1(att.hashVersion, att.configHash))
  {
    SoundAt(hash, text, states, events, k);
    PassIffChecks(hash, sha, parse, i);
    var att := i.record.value;
    VerifiedWasSigned(sha, parse(i.keyDER.value).value, states[k].signed, OfV1(att.hashVersion, att.configHash), att.signature);
  }

  /** Two different normal forms with one config hash. */
  ghost predicate HashCollides(h: Hasher, a: DeploymentV1, b: DeploymentV1) {
    a != b && h.v1(a).Some? && h.v1(a) == h.v1(b)
  }

  /**
    The `n`th observation was of this workload, converged, with this v1 normal form; or of a Deployment whose
    form collides with it.
   */
  ghost predicate SawAt(h: Hasher, text: TextHash, obs: seq<Observation>, n: nat, live: Deployment) {
    && n < |obs| && obs[n].read.Found? && RolledOut(obs[n].read.d)
    && var form, found := NormalFormV1(live), NormalFormV1(obs[n].read.d);
       || (found == form && obs[n].id == DeploymentID(text, live.namespace, live.name))
       || HashCollides(h, form, found)
  }

  ghost predicate Saw(h: Hasher, text: TextHash, obs: seq<Observation>, live: Deployment) {
    exists n :: SawAt(h, text, obs, n, live)
  }

  /** Deployments with one v1 config hash have one v1 normal form, or their forms collide. */
  lemma SameHashForms(h: Hasher, hash: HashFn, live: Deployment, found: Deployment)
    requires Dispatches(hash, h) && hash(V1, live).Some? && hash(V1, found) == hash(V1, live)
    ensures NormalFormV1(found) == NormalFormV1(live) || HashCollides(h, NormalFormV1(live), NormalFormV1(found))
  {
    assert hash(V1, live) == ConfigHashForVersion(h, V1, live);
    assert hash(V1, found) == ConfigHashForVersion(h, V1, found);
  }

  /** The v1 normal form names the workload. */
  lemma FormNames(a: Deployment, b: Deployment)
    requires NormalFormV1(a) == NormalFormV1(b)
    ensures a.namespace == b.namespace && a.name == b.name
  {
  }

  lemma SameHashSaw(h: Hasher, hash: HashFn, text: TextHash, obs: seq<Observation>, v: Version, live: Deployment)
    requires Dispatches(hash, h) && hash(v, live).Some? && WasObserved(hash, obs, v, hash(v, live).value)
    requires forall n :: 0 <= n < |obs| ==> Named(text, obs[n])
    ensures Saw(h, text, obs, live)
  {
    var n: nat :| Observed(hash, obs, n, v, hash(v, live).value);
    var found := obs[n].read.d;
    SameHashForms(h, hash, live, found);
    if NormalFormV1(found) == NormalFormV1(live) {
      FormNames(found, live);
    }
    assert SawAt(h, text, obs, n, live);
  }

  /**
    In terms of configuration: the live Deployment's own workload was observed converged with the same v1 normal
    form, or a collision of signing preimages or of normal forms is exhibited.
   */
  lemma PassMeansObservedConfiguration(h: Hasher, hash: HashFn, text: TextHash, sha: Bytes -> Digest, parse: KeyParser,
                                       states: seq<Operator>, events: seq<Event>, k: nat, i: Inputs)
    requires Dispatches(hash, h) && Run(hash, text, states, events) && k < |states|
    requires RunVerify(hash, sha, parse, i) == Pass && OnlyOperatorSigns(sha, parse, i.keyDER.value, states[k])
    ensures
      var att := i.record.value;
      || Saw(h, text, states[k].obs, i.live.value)
      || CollidesWithSigned(sha, states[k].signed, OfV1(att.hashVersion, att.configHash))
  {
    SoundAt(hash, text, states, events, k);
    PassIsAuthentic(hash, text, sha, parse, states, events, k, i);
    PassIffChecks(hash, sha, parse, i);
    var att := i.record.value;
    if WasObserved(hash, states[k].obs, att.hashVersion, att.configHash) {
      SameHashSaw(h, hash, text, states[k].obs, att.hashVersion, i.live.value);
    }
  }
}
