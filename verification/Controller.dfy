/** internal/controller/deployment_controller.go: which observations become attestation jobs. */
module Controller {
  import opened Types
  import opened Kube
  import opened Normalize
  import opened NormalizeV1

  /** The SHA-256 of the canonical JSON of a normal form; marshalling may fail. */
  datatype Hasher = Hasher(v1: DeploymentV1 -> Option<Digest>, v2: DeploymentV2 -> Option<Digest>)

  predicate Supported(v: Version) {
    v == V1 || v == V2
  }

  /** The single dispatch point; an unknown version is an error. */
  function ConfigHashForVersion(h: Hasher, v: Version, d: Deployment): Option<Digest> {
    if v == V1 then h.v1(NormalFormV1(d))
    else if v == V2 then h.v2(NormalizeV2(d))
    else None
  }

  /** How a Deployment is hashed under a version: `ConfigHashForVersion` for some hasher. */
  type HashFn = (Version, Deployment) -> Option<Digest>

  ghost predicate Dispatches(hash: HashFn, h: Hasher) {
    forall v, d :: hash(v, d) == ConfigHashForVersion(h, v, d)
  }

  /** `rolloutConverged`. */
  predicate Converged(d: Deployment) {
    && d.status.observedGeneration >= d.generation
    && var desired := Replicas(d);
       d.status.updated == desired && d.status.ready == desired && d.status.available == desired && d.status.total == desired
  }

  /** What reading the Deployment gave. */
  datatype Read = NotFound | ReadFailed | Found(d: Deployment)

  datatype Job = Job(deploymentID: Digest, version: Version, configHash: Digest)

  /** The dedup cache and the jobs enqueued so far. */
  datatype Cache = Cache(lastAttested: map<Digest, Digest>, jobs: seq<Job>)

  const NoCache := Cache(map[], [])

  function Reconciled(hash: HashFn, c: Cache, id: Digest, read: Read): Cache {
    match read
    case NotFound => c.(lastAttested := c.lastAttested - {id})
    case ReadFailed => c
    case Found(d) =>
      if !Converged(d) then c
      else
        var now := hash(CurrentVersion, d);
        if now.None? then c
        else if id in c.lastAttested && c.lastAttested[id] == now.value then c
        else Cache(c.lastAttested[id := now.value], c.jobs + [Job(id, CurrentVersion, now.value)])
  }

  class DeploymentReconciler {
    var lastAttested: map<Digest, Digest>
    var jobs: seq<Job>

    ghost function Contents(): Cache
      reads this
    {
      Cache(lastAttested, jobs)
    }

    constructor ()
      ensures Contents() == NoCache
    {
      lastAttested, jobs := map[], [];
    }

    /**
      True is returned for a read that failed and is retried. A job is enqueued, and remembered, exactly for a
      Deployment whose spec was observed and whose four replica counts are the wanted one, if its hash is new.
     */
    method Reconcile(hash: HashFn, id: Digest, read: Read) returns (retry: bool)
      modifies this
      ensures Contents() == Reconciled(hash, old(Contents()), id, read)
      ensures retry <==> read.ReadFailed?
      ensures
        if && read.Found? && read.d.status.observedGeneration >= read.d.generation
           && (var wanted := if read.d.replicas.None? then 1 else read.d.replicas.value;
               && read.d.status.updated == wanted && read.d.status.ready == wanted
               && read.d.status.available == wanted && read.d.status.total == wanted)
           && hash(V1, read.d).Some?
           && !(id in old(lastAttested) && old(lastAttested)[id] == hash(V1, read.d).value)
        then
          && jobs == old(jobs) + [Job(id, V1, hash(V1, read.d).value)]
          && lastAttested == old(lastAttested)[id := hash(V1, read.d).value]
        else
          jobs == old(jobs) && lastAttested == if read.NotFound? then old(lastAttested) - {id} else old(lastAttested)
    {
      if read.NotFound? {
        lastAttested := lastAttested - {id};
        return false;
      }
      if read.ReadFailed? {
        return true;
      }
      if !Converged(read.d) {
        return false;
      }
      var now := hash(CurrentVersion, read.d);
      if now.None? {
        return false;
      }
      if id in lastAttested && lastAttested[id] == now.value {
        return false;
      }
      lastAttested := lastAttested[id := now.value];
      jobs := jobs + [Job(id, CurrentVersion, now.value)];
      return false;
    }
  }

  // ---------- workload ids ----------

  /** SHA-256 of a text. */
  type TextHash = string -> Digest

  /** The v1 id of a workload: the hash of `namespace/name`. */
  function DeploymentID(text: TextHash, namespace: string, name: string): Digest {
    text(namespace + "/" + name)
  }

  /** The text hashed: the namespace, a slash, the name. */
  lemma DeploymentIDText(text: TextHash, namespace: string, name: string) returns (t: string)
    ensures DeploymentID(text, namespace, name) == text(t)
    ensures |t| == |namespace| + 1 + |name| && t[|namespace|] == '/'
    ensures t[..|namespace|] == namespace && t[|namespace| + 1..] == name
  {
    t := namespace + "/" + name;
  }

  /** The first slash splits the text again, if namespaces have none. */
  lemma SlashSplits(a: string, b: string, a': string, b': string)
    requires '/' !in a && '/' !in a' && a + "/" + b == a' + "/" + b'
    ensures a == a' && b == b'
  {
    var t, t' := a + "/" + b, a' + "/" + b';
    assert t[|a|] == '/' && forall i :: 0 <= i < |a| ==> t[i] == a[i] != '/';
    assert t'[|a'|] == '/' && forall i :: 0 <= i < |a'| ==> t'[i] == a'[i] != '/';
    assert |a| == |a'|;
    assert t[..|a|] == a && t'[..|a'|] == a' && t[|a| + 1..] == b && t'[|a'| + 1..] == b';
  }

  /** Equal v1 ids are of one workload, or two texts collide, when namespaces have no slash (Kubernetes forbids one). */
  lemma DeploymentIDBinds(text: TextHash, namespace: string, name: string, namespace': string, name': string)
    requires '/' !in namespace && '/' !in namespace'
    requires DeploymentID(text, namespace, name) == DeploymentID(text, namespace', name')
    ensures || (namespace == namespace' && name == name')
            || (namespace + "/" + name != namespace' + "/" + name'
                && text(namespace + "/" + name) == text(namespace' + "/" + name'))
  {
    if namespace + "/" + name == namespace' + "/" + name' {
      SlashSplits(namespace, name, namespace', name');
    }
  }

  // ---------- the cache refines a pure function of the observations ----------

  /** One reconcile; reads of one id are serialised. */
  datatype Observation = Observation(id: Digest, read: Read)

  /** The id of a reconcile is that of the namespace and name it read. */
  predicate Named(text: TextHash, o: Observation) {
    o.read.Found? ==> o.id == DeploymentID(text, o.read.d.namespace, o.read.d.name)
  }

  function After(hash: HashFn, obs: seq<Observation>): Cache {
    if obs == [] then NoCache
    else Reconciled(hash, After(hash, obs[..|obs| - 1]), obs[|obs| - 1].id, obs[|obs| - 1].read)
  }

  /** What an observation says about a workload that matters: it is gone, or it stands converged at a hash. */
  datatype Signal = Gone | At(hash: Digest)

  function SignalOf(hash: HashFn, o: Observation): Option<Signal> {
    match o.read
    case NotFound => Some(Gone)
    case ReadFailed => None
    case Found(d) =>
      if Converged(d) && hash(CurrentVersion, d).Some?
      then Some(At(hash(CurrentVersion, d).value))
      else None
  }

  /** The signals of one workload, in order. */
  function Signals(hash: HashFn, obs: seq<Observation>, id: Digest): seq<Signal> {
    if obs == [] then []
    else
      var o := obs[|obs| - 1];
      Signals(hash, obs[..|obs| - 1], id) + (if o.id == id && SignalOf(hash, o).Some? then [SignalOf(hash, o).value] else [])
  }

  /** The hashes that differ from the signal just before them. */
  function Changes(sigs: seq<Signal>): seq<Digest> {
    if sigs == [] then []
    else
      var k := |sigs| - 1;
      Changes(sigs[..k]) + (if sigs[k].At? && (k == 0 || sigs[k - 1] != sigs[k]) then [sigs[k].hash] else [])
  }

  function HashesFor(jobs: seq<Job>, id: Digest): seq<Digest> {
    if jobs == [] then []
    else
      var j := jobs[|jobs| - 1];
      HashesFor(jobs[..|jobs| - 1], id) + (if j.deploymentID == id then [j.configHash] else [])
  }

  lemma {:induction false} ChangesSnoc(sigs: seq<Signal>, x: Signal)
    ensures Changes(sigs + [x])
         == Changes(sigs) + (if x.At? && (sigs == [] || sigs[|sigs| - 1] != x) then [x.hash] else [])
  {
    var t, k := sigs + [x], |sigs|;
    assert t[..k] == sigs && t[k] == x && (k == 0 || t[k - 1] == sigs[k - 1]);
    assert Changes(t) == Changes(t[..k]) + (if t[k].At? && (k == 0 || t[k - 1] != t[k]) then [t[k].hash] else []);
  }

  lemma {:induction false} HashesSnoc(jobs: seq<Job>, j: Job, id: Digest)
    ensures HashesFor(jobs + [j], id) == HashesFor(jobs, id) + (if j.deploymentID == id then [j.configHash] else [])
  {
    assert (jobs + [j])[..|jobs|] == jobs;
  }

  /** The cache remembers exactly the last signal. */
  predicate Remembers(c: Cache, sigs: seq<Signal>, id: Digest) {
    if sigs == [] || sigs[|sigs| - 1].Gone? then id !in c.lastAttested
    else id in c.lastAttested && c.lastAttested[id] == sigs[|sigs| - 1].hash
  }

  /** What a signal does to the cache. */
  function Noted(c: Cache, id: Digest, sig: Signal): Cache {
    match sig
    case Gone => c.(lastAttested := c.lastAttested - {id})
    case At(hash) =>
      if id in c.lastAttested && c.lastAttested[id] == hash then c
      else Cache(c.lastAttested[id := hash], c.jobs + [Job(id, CurrentVersion, hash)])
  }

  lemma OnlySignalsMatter(hash: HashFn, c: Cache, o: Observation)
    ensures Reconciled(hash, c, o.id, o.read) == if SignalOf(hash, o).Some? then Noted(c, o.id, SignalOf(hash, o).value) else c
  {
  }

  lemma NotedOwn(c: Cache, sig: Signal, sigs: seq<Signal>, id: Digest)
    requires HashesFor(c.jobs, id) == Changes(sigs) && Remembers(c, sigs, id)
    ensures HashesFor(Noted(c, id, sig).jobs, id) == Changes(sigs + [sig]) && Remembers(Noted(c, id, sig), sigs + [sig], id)
  {
    ChangesSnoc(sigs, sig);
    if sig.At? {
      HashesSnoc(c.jobs, Job(id, CurrentVersion, sig.hash), id);
    }
  }

  lemma NotedOther(c: Cache, sig: Signal, sigs: seq<Signal>, id: Digest, o: Digest)
    requires HashesFor(c.jobs, id) == Changes(sigs) && Remembers(c, sigs, id) && o != id
    ensures HashesFor(Noted(c, o, sig).jobs, id) == Changes(sigs) && Remembers(Noted(c, o, sig), sigs, id)
  {
    if sig.At? {
      HashesSnoc(c.jobs, Job(o, CurrentVersion, sig.hash), id);
    }
  }

  /**
    The jobs of a workload are its converged hashes with consecutive repeats collapsed, starting over after
    each observed deletion; reads that fail or have not converged change nothing.
   */
  lemma {:induction false} DedupRefines(hash: HashFn, obs: seq<Observation>, id: Digest)
    ensures
      var c := After(hash, obs);
      && HashesFor(c.jobs, id) == Changes(Signals(hash, obs, id))
      && Remembers(c, Signals(hash, obs, id), id)
  {
    if obs != [] {
      var n := |obs| - 1;
      var o, c, sigs := obs[n], After(hash, obs[..n]), Signals(hash, obs[..n], id);
      DedupRefines(hash, obs[..n], id);
      OnlySignalsMatter(hash, c, o);
      if SignalOf(hash, o).None? || o.id != id {
        assert Signals(hash, obs, id) == sigs + [] == sigs;
      }
      if SignalOf(hash, o).Some? {
        if o.id == id {
          NotedOwn(c, SignalOf(hash, o).value, sigs, id);
        } else {
          NotedOther(c, SignalOf(hash, o).value, sigs, id, o.id);
        }
      }
    }
  }

  /**
    Every job comes from an observation, under version 1, of a Deployment whose latest spec was observed and
    whose updated, ready, available and total replicas are all the wanted number, one if none is given.
   */
  lemma {:induction false} JobsAreObserved(hash: HashFn, obs: seq<Observation>, j: Job) returns (k: nat)
    requires j in After(hash, obs).jobs
    ensures k < |obs| && obs[k].id == j.deploymentID && obs[k].read.Found?
    ensures
      var d := obs[k].read.d;
      var wanted := if d.replicas.None? then 1 else d.replicas.value;
      && d.status.observedGeneration >= d.generation && d.status.updated == wanted && d.status.ready == wanted
      && d.status.available == wanted && d.status.total == wanted
    ensures j.version == 1 && hash(1, obs[k].read.d) == Some(j.configHash)
  {
    var n := |obs| - 1;
    if j in After(hash, obs[..n]).jobs {
      k := JobsAreObserved(hash, obs[..n], j);
    } else {
      k := n;
    }
  }

  /** Such a read with a hash that is not the remembered one adds exactly one job; any other read adds none. */
  lemma ReconcileAddsIff(hash: HashFn, c: Cache, id: Digest, read: Read)
    ensures
      var after := Reconciled(hash, c, id, read);
      if && read.Found? && read.d.status.observedGeneration >= read.d.generation
         && (var wanted := if read.d.replicas.None? then 1 else read.d.replicas.value;
             && read.d.status.updated == wanted && read.d.status.ready == wanted
             && read.d.status.available == wanted && read.d.status.total == wanted)
         && hash(1, read.d).Some?
         && !(id in c.lastAttested && c.lastAttested[id] == hash(1, read.d).value)
      then
        after == Cache(c.lastAttested[id := hash(1, read.d).value], c.jobs + [Job(id, 1, hash(1, read.d).value)])
      else
        after == c.(lastAttested := if read.NotFound? then c.lastAttested - {id} else c.lastAttested)
  {
  }

  /** Versions 1 and 2 are hashed, each by its own normal form; no other is. */
  lemma VersionsHashed(h: Hasher, v: Version, d: Deployment)
    ensures Supported(v) <==> v == 1 || v == 2
    ensures ConfigHashForVersion(h, 1, d) == h.v1(NormalFormV1(d)) && ConfigHashForVersion(h, 2, d) == h.v2(NormalizeV2(d))
    ensures v != 1 && v != 2 ==> ConfigHashForVersion(h, v, d).None?
  {
  }
}
