/**
  What the digests bind. The hash is an arbitrary function, so every result reads: the fields agree,
  or here are two byte strings that collide.
 */
module Binding {
  import opened Types
  import opened WireEncoding
  import opened Delivery

  ghost predicate Collides(sha: Bytes -> Digest, a: Bytes, b: Bytes) {
    a != b && sha(a) == sha(b)
  }

  function WorkloadID(sha: Bytes -> Digest, w: Identity): Option<Digest> {
    if Valid(w) then Some(sha(IdentityBytes(w))) else None
  }

  function SigningDigest(sha: Bytes -> Digest, e: Envelope): Option<Digest> {
    if Valid(e.identity) then Some(sha(Preimage(e))) else None
  }

  function IncarnationPreimage(uid: Bytes): Bytes {
    IncarnationDomain + uid
  }

  /** The fixed-width form of a UID; all zero for none. */
  function Incarnation(sha: Bytes -> Digest, uid: Bytes): Digest {
    if uid == [] then ZeroDigest else sha(IncarnationPreimage(uid))
  }

  /** What v1 signs: domain, version, config hash. */
  function PreimageV1(v: Version, configHash: Digest): Bytes {
    SigningDomain + (U16(v) + configHash.bytes)
  }

  function SigningDigestV1(sha: Bytes -> Digest, v: Version, configHash: Digest): Digest {
    sha(PreimageV1(v, configHash))
  }

  /** `revisionKey`. */
  function KeyOf(sha: Bytes -> Digest, fingerprint: Digest, d: Desired): RevisionKey {
    RevisionKey(d.version, d.configHash, Incarnation(sha, d.uid), fingerprint)
  }

  /** Equal v2 signing digests: the version, all five identity fields, the UID and the config hash agree. */
  lemma SigningDigestBinds(sha: Bytes -> Digest, e: Envelope, f: Envelope)
    requires SigningDigest(sha, e).Some? && SigningDigest(sha, e) == SigningDigest(sha, f)
    ensures e == f || Collides(sha, Preimage(e), Preimage(f))
  {
    if Preimage(e) == Preimage(f) {
      PreimageInjective(e, f);
    }
  }

  lemma WorkloadIDBinds(sha: Bytes -> Digest, w: Identity, x: Identity)
    requires WorkloadID(sha, w).Some? && WorkloadID(sha, w) == WorkloadID(sha, x)
    ensures w == x || Collides(sha, IdentityBytes(w), IdentityBytes(x))
  {
    if IdentityBytes(w) == IdentityBytes(x) {
      ValidIsEncodable(w);
      ValidIsEncodable(x);
      IdentityRoundTrip(w);
      IdentityRoundTrip(x);
    }
  }

  /** One of the UIDs is absent, and the other hashes to the zero reserved for that. */
  ghost predicate HidesAsNone(sha: Bytes -> Digest, u: Bytes, v: Bytes) {
    && u != v
    && ((u == [] && sha(IncarnationPreimage(v)) == ZeroDigest) || (v == [] && sha(IncarnationPreimage(u)) == ZeroDigest))
  }

  /** Equal incarnations: equal UIDs, a collision, or no UID and one that hashes to the reserved zero. */
  lemma IncarnationBinds(sha: Bytes -> Digest, u: Bytes, v: Bytes)
    requires Incarnation(sha, u) == Incarnation(sha, v)
    ensures || u == v
            || Collides(sha, IncarnationPreimage(u), IncarnationPreimage(v))
            || HidesAsNone(sha, u, v)
  {
    var n := |IncarnationDomain|;
    assert IncarnationPreimage(u)[n..] == u && IncarnationPreimage(v)[n..] == v;
  }

  /**
    `Enqueue` treats two requests with one workload id and one key as the same revision; they are, short
    of a collision in one of the two digests compared.
   */
  lemma SameKeySameRevision(sha: Bytes -> Digest, fingerprint: Digest, d: Desired, f: Desired)
    requires WorkloadID(sha, d.identity).Some? && WorkloadID(sha, d.identity) == WorkloadID(sha, f.identity)
    requires KeyOf(sha, fingerprint, d) == KeyOf(sha, fingerprint, f)
    ensures || d == f
            || Collides(sha, IdentityBytes(d.identity), IdentityBytes(f.identity))
            || Collides(sha, IncarnationPreimage(d.uid), IncarnationPreimage(f.uid))
            || HidesAsNone(sha, d.uid, f.uid)
  {
    WorkloadIDBinds(sha, d.identity, f.identity);
    IncarnationBinds(sha, d.uid, f.uid);
  }

  lemma PreimageV1Injective(v: Version, h: Digest, v': Version, h': Digest)
    requires PreimageV1(v, h) == PreimageV1(v', h')
    ensures v == v' && h == h'
  {
    var a, b, n := PreimageV1(v, h), PreimageV1(v', h'), |SigningDomain|;
    assert a[n..] == U16(v) + h.bytes && b[n..] == U16(v') + h'.bytes;
    assert a[n..][..2] == U16(v) && b[n..][..2] == U16(v');
    assert a[n..][2..] == h.bytes && b[n..][2..] == h'.bytes;
    U16RoundTrip(v);
    U16RoundTrip(v');
  }

  lemma SigningDigestV1Binds(sha: Bytes -> Digest, v: Version, h: Digest, v': Version, h': Digest)
    requires SigningDigestV1(sha, v, h) == SigningDigestV1(sha, v', h')
    ensures (v == v' && h == h') || Collides(sha, PreimageV1(v, h), PreimageV1(v', h'))
  {
    if PreimageV1(v, h) == PreimageV1(v', h') {
      PreimageV1Injective(v, h, v', h');
    }
  }

  /** The four kinds of preimage are pairwise disjoint sets of byte strings. */
  lemma DomainsAreSeparate(w: Identity, uid: Bytes, v: Version, h: Digest, e: Envelope)
    ensures IdentityBytes(w) != IncarnationPreimage(uid)
    ensures IdentityBytes(w) != PreimageV1(v, h)
    ensures IdentityBytes(w) != Preimage(e)
    ensures IncarnationPreimage(uid) != PreimageV1(v, h)
    ensures IncarnationPreimage(uid) != Preimage(e)
    ensures PreimageV1(v, h) != Preimage(e)
  {
    DomainBytes();
    assert IdentityBytes(w)[16] == 'w' as int;
    assert IncarnationPreimage(uid)[16] == 'i' as int;
    assert PreimageV1(v, h)[16] == 'a' as int && PreimageV1(v, h)[27] == 0;
    assert Preimage(e)[16] == 'a' as int && Preimage(e)[27] == '/' as int;
  }

  /** What v1 signs, place by place. */
  lemma PreimageV1Layout(v: Version, h: Digest)
    ensures
      var p, d := PreimageV1(v, h), |SigningDomain|;
      && |p| == d + 34 && p[..d] == SigningDomain && VersionAt(p, d, v) && p[d + 2..] == h.bytes
  {
    U16BigEndian(v);
  }

  /** The key of a revision, field by field; a workload without a UID has the zero incarnation. */
  lemma KeyFields(sha: Bytes -> Digest, fingerprint: Digest, d: Desired)
    ensures
      var k := KeyOf(sha, fingerprint, d);
      && k.version == d.version && k.configHash == d.configHash && k.fingerprint == fingerprint
      && (d.uid == [] ==> k.incarnation == ZeroDigest) && (d.uid != [] ==> k.incarnation == sha(IncarnationDomain + d.uid))
  {
  }

  lemma DomainBytes()
    ensures |IdentityDomain| == 37 && IdentityDomain[16] == 'w' as int
    ensures |IncarnationDomain| == 31 && IncarnationDomain[16] == 'i' as int
    ensures |SigningDomain| == 28 && SigningDomain[16] == 'a' as int && SigningDomain[27] == 0
    ensures |EnvelopeDomain| == 31 && EnvelopeDomain[16] == 'a' as int && EnvelopeDomain[27] == '/' as int
  {
  }

  // ---------- the publisher's own functions ----------

  /** The delivery protocol's environment, for the real encodings. */
  function PublisherEnv(sha: Bytes -> Digest, fingerprint: Digest, verify: (Digest, Bytes) -> bool): Env {
    Env((d: Desired) => WorkloadID(sha, d.identity),
        (d: Desired) => KeyOf(sha, fingerprint, d),
        (d: Desired) => sha(Preimage(d)),
        verify)
  }

  // ---------- what the key was used for ----------

  /** A message the operator's key may be used on: a v1 version and config hash, or a v2 envelope. */
  datatype Message = OfV1(version: Version, configHash: Digest) | OfV2(envelope: Envelope)

  function MessageBytes(m: Message): Bytes {
    match m
    case OfV1(v, h) => PreimageV1(v, h)
    case OfV2(e) => Preimage(e)
  }

  /** An envelope with an invalid identity has no signing digest. */
  predicate Signable(m: Message) {
    m.OfV2? ==> Valid(m.envelope.identity)
  }

  /** Whatever verifies under the key was signed with it. */
  ghost predicate OnlySigned(sha: Bytes -> Digest, verify: (Digest, Bytes) -> bool, signed: set<Message>) {
    forall digest, sig :: verify(digest, sig) ==> exists m :: m in signed && Signable(m) && sha(MessageBytes(m)) == digest
  }

  ghost predicate CollidesWithSigned(sha: Bytes -> Digest, signed: set<Message>, m: Message) {
    exists other :: other in signed && Collides(sha, MessageBytes(m), MessageBytes(other))
  }

  /** Different messages have different preimages, across the two versions too. */
  lemma MessageInjective(m: Message, n: Message)
    requires Signable(m) && Signable(n) && MessageBytes(m) == MessageBytes(n)
    ensures m == n
  {
    match (m, n)
    case (OfV1(v, h), OfV1(v', h')) => PreimageV1Injective(v, h, v', h');
    case (OfV2(e), OfV2(f)) => PreimageInjective(e, f);
    case (OfV1(v, h), OfV2(e)) => DomainsAreSeparate(e.identity, e.uid, v, h, e);
    case (OfV2(e), OfV1(v, h)) => DomainsAreSeparate(e.identity, e.uid, v, h, e);
  }

  /** A signature that verifies for a message was made for that message, short of a collision. */
  lemma VerifiedWasSigned(sha: Bytes -> Digest, verify: (Digest, Bytes) -> bool, signed: set<Message>, m: Message, sig: Bytes)
    requires OnlySigned(sha, verify, signed) && Signable(m) && verify(sha(MessageBytes(m)), sig)
    ensures m in signed || CollidesWithSigned(sha, signed, m)
  {
    var n :| n in signed && Signable(n) && sha(MessageBytes(n)) == sha(MessageBytes(m));
    if MessageBytes(m) == MessageBytes(n) {
      MessageInjective(m, n);
    }
  }

  /**
    `recordIsOurs` accepts a record for `d` only if exactly `d` was signed: a signature taken from another
    workload, incarnation, version or config hash, or from a v1 record, is refused, short of a collision.
   */
  lemma HarvestedSignatureRefused(sha: Bytes -> Digest, fingerprint: Digest, verify: (Digest, Bytes) -> bool,
                                  signed: set<Message>, d: Desired, sig: Bytes)
    requires OnlySigned(sha, verify, signed)
    requires Valid(d.identity) && PublisherEnv(sha, fingerprint, verify).Authentic(d, sig)
    ensures OfV2(d) in signed || CollidesWithSigned(sha, signed, OfV2(d))
  {
    VerifiedWasSigned(sha, verify, signed, OfV2(d), sig);
  }
}
