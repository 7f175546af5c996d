/** Values shared by every part of the model. */
module Types {
  datatype Option<+T> = None | Some(value: T)

  datatype Result<+T, +E> = Ok(value: T) | Err(error: E)

  type Byte = b: int | 0 <= b < 256

  type Bytes = seq<Byte>

  const Zeros32: Bytes :=
    [0, 0, 0, 0, 0, 0, 0, 0, 0, 0, 0, 0, 0, 0, 0, 0,
     0, 0, 0, 0, 0, 0, 0, 0, 0, 0, 0, 0, 0, 0, 0, 0]

  /** A `[32]byte`. */
  type Bytes32 = b: Bytes | |b| == 32 witness Zeros32

  /** A 32-byte digest: a config hash, a workload id, an incarnation, a fingerprint or a signing digest. */
  datatype Digest = Digest(bytes: Bytes32)

  const ZeroDigest: Digest := Digest(Zeros32)

  /** A protocol version; the source types it `uint16`. */
  type Version = v: int | 0 <= v < 0x1_0000

  const VersionUnknown: Version := 0
  const V1: Version := 1
  const V2: Version := 2
  const CurrentVersion: Version := V1

  /** Which workload, across clusters. Go strings are byte strings. */
  datatype Identity = Identity(clusterID: Bytes, apiVersion: Bytes, kind: Bytes, namespace: Bytes, name: Bytes)

  /** What the reconciler asks the v2 publisher for. The log-only label is dropped. */
  datatype Desired = Desired(identity: Identity, version: Version, configHash: Digest, uid: Bytes)

  /** Everything that says whether an on-chain record is a given revision. */
  datatype RevisionKey = RevisionKey(version: Version, configHash: Digest, incarnation: Digest, fingerprint: Digest)
}
