/**
  The v2 wire encoding: length-prefixed identities nested in a length-prefixed envelope, each kind
  of preimage under its own domain string, and the independent decoder that checks it.
 */
module WireEncoding {
  import opened Types

  // ---------- bytes ----------

  function Ascii(s: string): (r: Bytes)
    requires forall i :: 0 <= i < |s| ==> s[i] < 128 as char
    ensures |r| == |s| && forall i :: 0 <= i < |s| ==> r[i] == s[i] as int
  {
    seq(|s|, i requires 0 <= i < |s| => s[i] as int)
  }

  /** `AppendUint16`: the low 16 bits, big-endian. */
  function U16(n: nat): (r: Bytes)
    ensures |r| == 2
  {
    [n / 0x100 % 0x100, n % 0x100]
  }

  /** `AppendUint32(uint32(n))`: the low 32 bits, big-endian. */
  function U32(n: nat): (r: Bytes)
    ensures |r| == 4
  {
    [n / 0x100_0000 % 0x100, n / 0x1_0000 % 0x100, n / 0x100 % 0x100, n % 0x100]
  }

  function FromU16(b: Bytes): (n: Version)
    requires |b| == 2
  {
    (b[0] as int) * 0x100 + (b[1] as int)
  }

  function FromU32(b: Bytes): (n: nat)
    requires |b| == 4
    ensures n < 0x1_0000_0000
  {
    (b[0] as int) * 0x100_0000 + (b[1] as int) * 0x1_0000 + (b[2] as int) * 0x100 + (b[3] as int)
  }

  lemma U16RoundTrip(n: nat)
    ensures FromU16(U16(n)) == n % 0x1_0000
  {
  }

  lemma U32RoundTrip(n: nat)
    ensures FromU32(U32(n)) == n % 0x1_0000_0000
  {
    var n1 := n / 0x100;
    var n2 := n1 / 0x100;
    var n3 := n2 / 0x100;
    assert n / 0x1_0000 == n2 && n / 0x100_0000 == n3;
  }

  lemma FromU16RoundTrip(b: Bytes)
    requires |b| == 2
    ensures U16(FromU16(b)) == b
  {
  }

  lemma FromU32RoundTrip(b: Bytes)
    requires |b| == 4
    ensures U32(FromU32(b)) == b
  {
    var n := FromU32(b);
    var n1, n2 := n / 0x100, n / 0x1_0000;
    assert n1 == (b[0] as int) * 0x1_0000 + (b[1] as int) * 0x100 + (b[2] as int);
    assert n2 == (b[0] as int) * 0x100 + (b[1] as int);
    assert n / 0x100_0000 == b[0] as int;
  }

  /** The four bytes at `i` are the low 32 bits of `n`, the most significant first. */
  predicate LengthAt(b: Bytes, i: nat, n: nat) {
    && i + 4 <= |b|
    && n % 0x1_0000_0000 ==
       0x100_0000 * (b[i] as int) + 0x1_0000 * (b[i + 1] as int) + 0x100 * (b[i + 2] as int) + (b[i + 3] as int)
  }

  /** The two bytes at `i` are the version, the more significant first. */
  predicate VersionAt(b: Bytes, i: nat, v: Version) {
    i + 2 <= |b| && v as int == 0x100 * (b[i] as int) + (b[i + 1] as int)
  }

  lemma U32BigEndian(n: nat)
    ensures LengthAt(U32(n), 0, n)
  {
    U32RoundTrip(n);
  }

  lemma U16BigEndian(v: Version)
    ensures VersionAt(U16(v), 0, v)
  {
    U16RoundTrip(v);
  }

  // ---------- domains ----------

  const IdentityDomain: Bytes := Ascii("proof-of-deploy/workload-identity/v2\0")
  const EnvelopeDomain: Bytes := Ascii("proof-of-deploy/attestation/v2\0")
  const IncarnationDomain: Bytes := Ascii("proof-of-deploy/incarnation/v2\0")
  const SigningDomain: Bytes := Ascii("proof-of-deploy/attestation\0")

  /** The bytes spell the text. */
  predicate Spells(b: Bytes, text: string) {
    |b| == |text| && forall i :: 0 <= i < |b| ==> b[i] == text[i] as int
  }

  /** The four domain strings; each ends in a zero byte. */
  lemma DomainTexts()
    ensures Spells(IdentityDomain, "proof-of-deploy/workload-identity/v2\0")
    ensures Spells(EnvelopeDomain, "proof-of-deploy/attestation/v2\0")
    ensures Spells(IncarnationDomain, "proof-of-deploy/incarnation/v2\0")
    ensures Spells(SigningDomain, "proof-of-deploy/attestation\0")
  {
  }

  // ---------- length-prefixed fields ----------

  function LengthPrefixed(s: Bytes): Bytes {
    U32(|s|) + s
  }

  function EncodeFields(fields: seq<Bytes>): Bytes {
    if fields == [] then [] else LengthPrefixed(fields[0]) + EncodeFields(fields[1..])
  }

  /** `appendLengthPrefixed`. */
  method AppendLengthPrefixed(dst: Bytes, s: Bytes) returns (r: Bytes)
    ensures r == dst + LengthPrefixed(s)
    ensures |r| == |dst| + 4 + |s| && r[..|dst|] == dst && LengthAt(r, |dst|, |s|) && r[|dst| + 4..] == s
  {
    U32BigEndian(|s|);
    r := dst + U32(|s|);
    r := r + s;
  }

  /** Python slices clamp: `b[:n]` and `b[n:]` of a short `b` are all of it and nothing. */
  function Take(b: Bytes, n: nat): Bytes {
    if n <= |b| then b[..n] else b
  }

  function Drop(b: Bytes, n: nat): Bytes {
    if n <= |b| then b[n..] else []
  }

  datatype DecodeError = ShortLength | WrongFieldCount | WrongHashWidth

  /** What the decoder's loop yields: unpacking a length from fewer than four bytes raises. */
  function FieldsOf(body: Bytes): Result<seq<Bytes>, DecodeError>
    decreases |body|
  {
    if body == [] then Ok([])
    else if |body| < 4 then Err(ShortLength)
    else
      var n := FromU32(body[..4]);
      var rest := FieldsOf(Drop(body[4..], n));
      if rest.Err? then rest else Ok([Take(body[4..], n)] + rest.value)
  }

  /** The whole decodes to the fields so far followed by the rest, or to the rest's error. */
  predicate Continues(whole: Result<seq<Bytes>, DecodeError>, fields: seq<Bytes>, rest: Result<seq<Bytes>, DecodeError>) {
    if rest.Ok? then whole == Ok(fields + rest.value) else whole == rest
  }

  lemma OneMore(fields: seq<Bytes>, f: Bytes, whole: Result<seq<Bytes>, DecodeError>,
                rest: Result<seq<Bytes>, DecodeError>, after: Result<seq<Bytes>, DecodeError>)
    requires Continues(whole, fields, rest) && Continues(rest, [f], after)
    ensures Continues(whole, fields + [f], after)
  {
    if after.Ok? {
      assert fields + ([f] + after.value) == fields + [f] + after.value;
    }
  }

  /** The decoder's loop. */
  method DecodeFields(enc: Bytes) returns (r: Result<seq<Bytes>, DecodeError>)
    ensures r == FieldsOf(enc)
  {
    var body, fields := enc, [];
    assert FieldsOf(enc).Ok? ==> [] + FieldsOf(enc).value == FieldsOf(enc).value;
    while body != []
      invariant Continues(FieldsOf(enc), fields, FieldsOf(body))
      decreases |body|
    {
      if |body| < 4 {
        return Err(ShortLength);
      }
      var n := FromU32(body[..4]);
      OneMore(fields, Take(body[4..], n), FieldsOf(enc), FieldsOf(body), FieldsOf(Drop(body[4..], n)));
      fields := fields + [Take(body[4..], n)];
      body := Drop(body[4..], n);
    }
    assert fields + [] == fields;
    return Ok(fields);
  }

  /** Every length prefix is complete and covers bytes that are there. */
  predicate WellFormed(body: Bytes)
    decreases |body|
  {
    body == [] || (|body| >= 4 && FromU32(body[..4]) <= |body| - 4 && WellFormed(body[4 + FromU32(body[..4])..]))
  }

  predicate Encodable(fields: seq<Bytes>) {
    forall i :: 0 <= i < |fields| ==> |fields[i]| < 0x1_0000_0000
  }

  lemma LengthPrefixedSplit(s: Bytes, rest: Bytes)
    ensures
      var b := LengthPrefixed(s) + rest;
      |b| == 4 + |s| + |rest| && b[..4] == U32(|s|) && b[4..] == s + rest
  {
  }

  lemma TakeDrop(s: Bytes, rest: Bytes)
    ensures Take(s + rest, |s|) == s && Drop(s + rest, |s|) == rest
  {
  }

  lemma LengthRead(n: nat, b: Bytes)
    requires b == U32(n)
    ensures FromU32(b) == n % 0x1_0000_0000 && (n < 0x1_0000_0000 ==> FromU32(b) == n)
  {
    U32RoundTrip(n);
  }

  lemma LengthPrefixedParts(s: Bytes, rest: Bytes)
    ensures
      var b := LengthPrefixed(s) + rest;
      && |b| == 4 + |s| + |rest| && FromU32(b[..4]) == |s| % 0x1_0000_0000
      && b[4..] == s + rest
      && (|s| < 0x1_0000_0000 ==> Take(b[4..], FromU32(b[..4])) == s && Drop(b[4..], FromU32(b[..4])) == rest)
  {
    var b := LengthPrefixed(s) + rest;
    LengthPrefixedSplit(s, rest);
    LengthRead(|s|, b[..4]);
    TakeDrop(s, rest);
  }

  /** The decoder inverts the encoder. */
  lemma {:induction false} FieldsRoundTrip(fields: seq<Bytes>)
    requires Encodable(fields)
    ensures FieldsOf(EncodeFields(fields)) == Ok(fields)
  {
    if fields != [] {
      LengthPrefixedParts(fields[0], EncodeFields(fields[1..]));
      FieldsRoundTrip(fields[1..]);
      assert [fields[0]] + fields[1..] == fields;
    }
  }

  /** A complete length prefix and what it covers re-encode to themselves. */
  lemma PrefixAgain(b: Bytes)
    requires |b| >= 4 && 4 + FromU32(b[..4]) <= |b|
    ensures
      var n := FromU32(b[..4]);
      && LengthPrefixed(b[4..4 + n]) + b[4 + n..] == b
      && Take(b[4..], n) == b[4..4 + n] && Drop(b[4..], n) == b[4 + n..]
  {
    FromU32RoundTrip(b[..4]);
  }

  lemma EncodeCons(first: Bytes, rest: seq<Bytes>)
    ensures EncodeFields([first] + rest) == LengthPrefixed(first) + EncodeFields(rest)
  {
    assert ([first] + rest)[1..] == rest;
  }

  lemma SameRest(p: Bytes, a: Bytes, b: Bytes)
    ensures p + a == p + b <==> a == b
  {
    assert (p + a)[|p|..] == a && (p + b)[|p|..] == b;
  }

  predicate Reencodes(body: Bytes) {
    FieldsOf(body).Ok? && EncodeFields(FieldsOf(body).value) == body
  }

  /** The first field is there: the rest decides. */
  lemma ReencodesRest(body: Bytes)
    requires |body| >= 4 && 4 + FromU32(body[..4]) <= |body|
    ensures Reencodes(body) <==> Reencodes(body[4 + FromU32(body[..4])..])
  {
    var n := FromU32(body[..4]);
    var first, after := body[4..4 + n], body[4 + n..];
    PrefixAgain(body);
    if FieldsOf(after).Ok? {
      var rest := FieldsOf(after).value;
      EncodeCons(first, rest);
      SameRest(LengthPrefixed(first), EncodeFields(rest), after);
    }
  }

  /** The first field is cut short: its length does not re-encode. */
  lemma CutShort(body: Bytes)
    requires |body| >= 4 && 4 + FromU32(body[..4]) > |body|
    ensures !Reencodes(body)
  {
    var first := body[4..];
    assert FieldsOf([]) == Ok([]);
    assert [first] + [] == [first];
    EncodeCons(first, []);
    U32RoundTrip(|first|);
    assert LengthPrefixed(first)[..4] == U32(|first|);
  }

  /** Re-encoding what was decoded gives the bytes back exactly when they are well formed. */
  lemma {:induction false} ReencodesIff(body: Bytes)
    ensures WellFormed(body) <==> FieldsOf(body).Ok? && EncodeFields(FieldsOf(body).value) == body
    ensures WellFormed(body) ==> Encodable(FieldsOf(body).value)
    decreases |body|
  {
    if |body| >= 4 {
      var n := FromU32(body[..4]);
      if 4 + n <= |body| {
        ReencodesIff(body[4 + n..]);
        ReencodesRest(body);
        PrefixAgain(body);
      } else {
        CutShort(body);
      }
    }
  }

  // ---------- workload identities ----------

  const MaxFieldLen := 0x1_0000

  datatype IdentityError = EmptyClusterID | EmptyField(name: string) | FieldTooLong(name: string)

  function Named(w: Identity): set<(string, Bytes)> {
    {("APIVersion", w.apiVersion), ("Kind", w.kind), ("Namespace", w.namespace), ("Name", w.name)}
  }

  function Tuple(w: Identity): seq<Bytes> {
    [w.clusterID, w.apiVersion, w.kind, w.namespace, w.name]
  }

  predicate Valid(w: Identity) {
    forall i :: 0 <= i < 5 ==> 0 < |Tuple(w)[i]| <= MaxFieldLen
  }

  lemma ValidFields(w: Identity)
    ensures Valid(w) <==>
            && 1 <= |w.clusterID| <= 65536 && 1 <= |w.apiVersion| <= 65536 && 1 <= |w.kind| <= 65536
            && 1 <= |w.namespace| <= 65536 && 1 <= |w.name| <= 65536
  {
    assert Tuple(w)[0] == w.clusterID && Tuple(w)[1] == w.apiVersion && Tuple(w)[2] == w.kind;
    assert Tuple(w)[3] == w.namespace && Tuple(w)[4] == w.name;
  }

  lemma NamedInTuple(w: Identity, f: (string, Bytes))
    requires f in Named(w) + {("ClusterID", w.clusterID)}
    ensures exists i :: 0 <= i < 5 && Tuple(w)[i] == f.1
  {
    assert Tuple(w)[0] == w.clusterID && Tuple(w)[1] == w.apiVersion && Tuple(w)[2] == w.kind;
    assert Tuple(w)[3] == w.namespace && Tuple(w)[4] == w.name;
  }

  /** `Validate`; Go visits the fields in an unspecified order, so which error is reported is open. */
  method Validate(w: Identity) returns (e: Option<IdentityError>)
    ensures e.None? <==> Valid(w)
    ensures e == Some(EmptyClusterID) <==> w.clusterID == []
    ensures e.Some? && e.value.EmptyField? ==> (e.value.name, []) in Named(w)
    ensures e.Some? && e.value.FieldTooLong? ==> forall i :: 0 <= i < 5 ==> Tuple(w)[i] != []
    ensures e.Some? && e.value.FieldTooLong? ==>
              exists f :: f in Named(w) + {("ClusterID", w.clusterID)} && f.0 == e.value.name && |f.1| > MaxFieldLen
  {
    if w.clusterID == [] {
      assert Tuple(w)[0] == [];
      return Some(EmptyClusterID);
    }
    var todo := Named(w);
    while todo != {}
      invariant todo <= Named(w)
      invariant forall f :: f in Named(w) - todo ==> f.1 != []
    {
      var f :| f in todo;
      if f.1 == [] {
        NamedInTuple(w, f);
        return Some(EmptyField(f.0));
      }
      todo := todo - {f};
    }
    assert forall i :: 1 <= i < 5 ==> exists f :: f in Named(w) && f.1 == Tuple(w)[i];
    todo := Named(w) + {("ClusterID", w.clusterID)};
    while todo != {}
      invariant todo <= Named(w) + {("ClusterID", w.clusterID)}
      invariant forall f :: f in Named(w) + {("ClusterID", w.clusterID)} - todo ==> |f.1| <= MaxFieldLen
    {
      var f :| f in todo;
      if |f.1| > MaxFieldLen {
        NamedInTuple(w, f);
        return Some(FieldTooLong(f.0));
      }
      todo := todo - {f};
    }
    return None;
  }

  function IdentityBytes(w: Identity): Bytes {
    IdentityDomain + EncodeFields(Tuple(w))
  }

  /** `Encode`. */
  method Encode(w: Identity) returns (r: Result<Bytes, IdentityError>)
    ensures Valid(w) ==> r == Ok(IdentityBytes(w))
    ensures !Valid(w) ==> r.Err?
    ensures r.Ok? ==>
              r.value == IdentityDomain + LengthPrefixed(w.clusterID) + LengthPrefixed(w.apiVersion) + LengthPrefixed(w.kind)
                         + LengthPrefixed(w.namespace) + LengthPrefixed(w.name)
  {
    var e := Validate(w);
    if e.Some? {
      return Err(e.value);
    }
    var buf: Bytes := [];
    buf := buf + IdentityDomain;
    buf := AppendLengthPrefixed(buf, w.clusterID);
    buf := AppendLengthPrefixed(buf, w.apiVersion);
    buf := AppendLengthPrefixed(buf, w.kind);
    buf := AppendLengthPrefixed(buf, w.namespace);
    buf := AppendLengthPrefixed(buf, w.name);
    FiveFields(w, [] + IdentityDomain);
    assert [] + IdentityDomain == IdentityDomain;
    return Ok(buf);
  }

  lemma {:induction false} EncodeAppend(fields: seq<Bytes>, x: Bytes)
    ensures EncodeFields(fields + [x]) == EncodeFields(fields) + LengthPrefixed(x)
  {
    if fields == [] {
      assert fields + [x] == [x];
      assert LengthPrefixed(x) + [] == LengthPrefixed(x);
    } else {
      EncodeAppend(fields[1..], x);
      assert (fields + [x])[1..] == fields[1..] + [x];
    }
  }

  lemma FiveFields(w: Identity, dst: Bytes)
    ensures dst + LengthPrefixed(w.clusterID) + LengthPrefixed(w.apiVersion) + LengthPrefixed(w.kind)
            + LengthPrefixed(w.namespace) + LengthPrefixed(w.name)
         == dst + EncodeFields(Tuple(w))
  {
    var t := Tuple(w);
    assert t[..0] == [] && t[..1] == t[..0] + [w.clusterID] && t[..2] == t[..1] + [w.apiVersion];
    assert t[..3] == t[..2] + [w.kind] && t[..4] == t[..3] + [w.namespace] && t == t[..4] + [w.name];
    EncodeAppend(t[..0], w.clusterID);
    EncodeAppend(t[..1], w.apiVersion);
    EncodeAppend(t[..2], w.kind);
    EncodeAppend(t[..3], w.namespace);
    EncodeAppend(t[..4], w.name);
    assert EncodeFields(t[..1]) == LengthPrefixed(w.clusterID);
    Associate(dst, LengthPrefixed(w.clusterID), LengthPrefixed(w.apiVersion), LengthPrefixed(w.kind),
              LengthPrefixed(w.namespace), LengthPrefixed(w.name));
  }

  /** The identity part of the checker: drop the domain, split, and insist on five fields. */
  function DecodeIdentity(enc: Bytes): Result<Identity, DecodeError> {
    var fields := FieldsOf(Drop(enc, |IdentityDomain|));
    if fields.Err? then Err(fields.error)
    else if |fields.value| != 5 then Err(WrongFieldCount)
    else Ok(Identity(fields.value[0], fields.value[1], fields.value[2], fields.value[3], fields.value[4]))
  }

  lemma IdentityRoundTrip(w: Identity)
    requires Encodable(Tuple(w))
    ensures DecodeIdentity(IdentityBytes(w)) == Ok(w)
  {
    assert Drop(IdentityBytes(w), |IdentityDomain|) == EncodeFields(Tuple(w));
    FieldsRoundTrip(Tuple(w));
  }

  lemma ValidIsEncodable(w: Identity)
    requires Valid(w)
    ensures Encodable(Tuple(w)) && |IdentityBytes(w)| < 0x1_0000_0000
  {
    FiveFields(w, []);
    assert Tuple(w)[0] == w.clusterID && Tuple(w)[1] == w.apiVersion && Tuple(w)[2] == w.kind;
    assert Tuple(w)[3] == w.namespace && Tuple(w)[4] == w.name;
  }

  /** Decoding loses no byte: what it yields re-encodes to a string of the same length. */
  lemma {:induction false} FieldsKeepLength(body: Bytes)
    requires FieldsOf(body).Ok?
    ensures |EncodeFields(FieldsOf(body).value)| == |body|
    decreases |body|
  {
    if body != [] {
      var n := FromU32(body[..4]);
      var first, after := Take(body[4..], n), Drop(body[4..], n);
      FieldsKeepLength(after);
      var fields := FieldsOf(body).value;
      assert fields[0] == first && fields[1..] == FieldsOf(after).value;
    }
  }

  lemma FiveAreTuple(fields: seq<Bytes>)
    requires |fields| == 5
    ensures Tuple(Identity(fields[0], fields[1], fields[2], fields[3], fields[4])) == fields
  {
  }

  lemma TupleOfDecoded(enc: Bytes)
    requires DecodeIdentity(enc).Ok?
    ensures |enc| >= |IdentityDomain|
    ensures FieldsOf(enc[|IdentityDomain|..]) == Ok(Tuple(DecodeIdentity(enc).value))
    ensures |IdentityBytes(DecodeIdentity(enc).value)| == |enc|
  {
    FiveAreTuple(FieldsOf(Drop(enc, |IdentityDomain|)).value);
    FieldsKeepLength(Drop(enc, |IdentityDomain|));
  }

  lemma AcceptedIsEncodable(enc: Bytes)
    requires DecodeIdentity(enc).Ok? && IdentityBytes(DecodeIdentity(enc).value) == enc
    ensures Encodable(Tuple(DecodeIdentity(enc).value))
  {
    var n := |IdentityDomain|;
    TupleOfDecoded(enc);
    assert IdentityBytes(DecodeIdentity(enc).value)[n..] == EncodeFields(Tuple(DecodeIdentity(enc).value));
    ReencodesIff(enc[n..]);
  }

  /**
    The checker accepts a byte string, decoding it and finding the re-encoding equal, exactly when it
    is the encoding of some tuple of five fields; and it recovers that tuple.
   */
  lemma AcceptedIffEncoded(enc: Bytes)
    ensures (DecodeIdentity(enc).Ok? && IdentityBytes(DecodeIdentity(enc).value) == enc)
            <==> exists w :: Encodable(Tuple(w)) && IdentityBytes(w) == enc
  {
    if DecodeIdentity(enc).Ok? && IdentityBytes(DecodeIdentity(enc).value) == enc {
      AcceptedIsEncodable(enc);
    }
    forall w | Encodable(Tuple(w)) && IdentityBytes(w) == enc
      ensures DecodeIdentity(enc) == Ok(w)
    {
      IdentityRoundTrip(w);
    }
  }

  // ---------- envelopes ----------

  /** Everything a v2 attestation binds. The v2 publisher's `Desired` holds the same four fields. */
  type Envelope = Desired

  /** Version, identity and UID under their lengths, config hash. */
  function BodyBytes(e: Envelope): Bytes {
    U16(e.version) + (LengthPrefixed(IdentityBytes(e.identity)) + (LengthPrefixed(e.uid) + e.configHash.bytes))
  }

  function Preimage(e: Envelope): Bytes {
    EnvelopeDomain + BodyBytes(e)
  }

  /** `SigningPreimage`. */
  method SigningPreimage(e: Envelope) returns (r: Result<Bytes, IdentityError>)
    ensures Valid(e.identity) ==> r == Ok(Preimage(e))
    ensures !Valid(e.identity) ==> r.Err?
  {
    var idEnc := Encode(e.identity);
    if idEnc.Err? {
      return idEnc;
    }
    var buf: Bytes := [];
    buf := buf + EnvelopeDomain;
    buf := buf + U16(e.version);
    buf := buf + U32(|idEnc.value|);
    buf := buf + idEnc.value;
    buf := AppendLengthPrefixed(buf, e.uid);
    buf := buf + e.configHash.bytes;
    assert [] + EnvelopeDomain == EnvelopeDomain;
    Associate(EnvelopeDomain, U16(e.version), U32(|idEnc.value|), idEnc.value, LengthPrefixed(e.uid), e.configHash.bytes);
    return Ok(buf);
  }

  lemma Associate(a: Bytes, b: Bytes, c: Bytes, d: Bytes, e: Bytes, f: Bytes)
    ensures a + b + c + d + e + f == a + (b + ((c + d) + (e + f)))
    ensures a + b + c + d + e + f == a + (b + c + d + e + f)
  {
  }

  /** The end of an envelope: a UID under its length, then the config hash. */
  function DecodeTail(tail: Bytes): Result<(Bytes, Digest), DecodeError> {
    if |tail| < 4 then Err(ShortLength)
    else
      var uidLen := FromU32(tail[..4]);
      var configHash := Drop(tail[4..], uidLen);
      if |configHash| != 32 then Err(WrongHashWidth)
      else Ok((Take(tail[4..], uidLen), Digest(configHash)))
  }

  function Assemble(version: Version, identity: Result<Identity, DecodeError>, tail: Result<(Bytes, Digest), DecodeError>)
    : Result<Envelope, DecodeError>
  {
    if tail.Err? then Err(tail.error)
    else if identity.Err? then Err(identity.error)
    else Ok(Desired(identity.value, version, tail.value.1, tail.value.0))
  }

  /** What follows the envelope's domain. */
  function DecodeBody(body: Bytes): Result<Envelope, DecodeError> {
    if |body| < 6 then Err(ShortLength)
    else
      var idLen := FromU32(body[2..6]);
      Assemble(FromU16(body[..2]), DecodeIdentity(Take(body[6..], idLen)), DecodeTail(Drop(body[6..], idLen)))
  }

  /** The preimage part of the checker, with the identity it skips over decoded in place. */
  function DecodePreimage(pre: Bytes): Result<Envelope, DecodeError> {
    DecodeBody(Drop(pre, |EnvelopeDomain|))
  }

  /** Version, identity bytes and the rest can be read off. */
  lemma JoinedParts(version: Version, id: Bytes, tail: Bytes, body: Bytes)
    requires |id| < 0x1_0000_0000 && body == U16(version) + (LengthPrefixed(id) + tail)
    ensures |body| == 6 + |id| + |tail| && FromU16(body[..2]) == version && FromU32(body[2..6]) == |id|
    ensures body[6..6 + |id|] == id && body[6 + |id|..] == tail
  {
    var rest := LengthPrefixed(id) + tail;
    assert body[..2] == U16(version) && body[2..] == rest;
    U16RoundTrip(version);
    LengthPrefixedParts(id, tail);
    assert body[2..6] == rest[..4] && body[6..] == rest[4..] == id + tail;
  }

  lemma HeadParts(version: Version, id: Bytes, tail: Bytes, body: Bytes)
    requires |id| < 0x1_0000_0000 && body == U16(version) + (LengthPrefixed(id) + tail)
    ensures |body| >= 6 && FromU16(body[..2]) == version
    ensures Take(body[6..], FromU32(body[2..6])) == id && Drop(body[6..], FromU32(body[2..6])) == tail
  {
    JoinedParts(version, id, tail, body);
    BodySplit(body, |id|);
  }

  /** The nested identity's fields and the identity as a whole fit their length prefixes. */
  predicate IdentityFits(w: Identity) {
    Encodable(Tuple(w)) && |IdentityBytes(w)| < 0x1_0000_0000
  }

  lemma PreimageParts(e: Envelope)
    requires IdentityFits(e.identity)
    ensures
      var body := Drop(Preimage(e), |EnvelopeDomain|);
      && |body| >= 6 && FromU16(body[..2]) == e.version
      && DecodeIdentity(Take(body[6..], FromU32(body[2..6]))) == Ok(e.identity)
      && Drop(body[6..], FromU32(body[2..6])) == LengthPrefixed(e.uid) + e.configHash.bytes
  {
    var body := Drop(Preimage(e), |EnvelopeDomain|);
    var tail := LengthPrefixed(e.uid) + e.configHash.bytes;
    var id := IdentityBytes(e.identity);
    assert body == U16(e.version) + (LengthPrefixed(id) + tail);
    HeadParts(e.version, id, tail, body);
    IdentityRoundTrip(e.identity);
  }

  /** A UID after its length, and the config hash in the last 32 bytes. */
  predicate TailLaidOut(tail: Bytes, uid: Bytes, h: Bytes32) {
    && |tail| == 4 + |uid| + 32
    && LengthAt(tail, 0, |uid|) && tail[4..4 + |uid|] == uid && tail[4 + |uid|..] == h
  }

  /** The version and the identity's length, each most significant byte first, the identity, and the tail. */
  predicate LaidOut(body: Bytes, version: Version, id: Bytes, uid: Bytes, h: Bytes32) {
    && |body| == 6 + |id| + 4 + |uid| + 32
    && VersionAt(body, 0, version) && LengthAt(body, 2, |id|) && body[6..6 + |id|] == id
    && TailLaidOut(body[6 + |id|..], uid, h)
  }

  lemma BodyLaidOut(version: Version, id: Bytes, uid: Bytes, h: Bytes32)
    ensures LaidOut(U16(version) + (LengthPrefixed(id) + (LengthPrefixed(uid) + h)), version, id, uid, h)
  {
    PrefixLayout(uid, h);
    BodyLayout(version, id, LengthPrefixed(uid) + h, U16(version) + (LengthPrefixed(id) + (LengthPrefixed(uid) + h)));
  }

  /** Where everything is in a preimage. */
  lemma PreimageLayout(e: Envelope)
    ensures Preimage(e)[..|EnvelopeDomain|] == EnvelopeDomain
    ensures LaidOut(Preimage(e)[|EnvelopeDomain|..], e.version, IdentityBytes(e.identity), e.uid, e.configHash.bytes)
  {
    assert Preimage(e)[|EnvelopeDomain|..] == BodyBytes(e);
    BodyLaidOut(e.version, IdentityBytes(e.identity), e.uid, e.configHash.bytes);
  }

  lemma PrefixLayout(s: Bytes, rest: Bytes)
    ensures
      var b := LengthPrefixed(s) + rest;
      |b| == 4 + |s| + |rest| && LengthAt(b, 0, |s|) && b[4..4 + |s|] == s && b[4 + |s|..] == rest
  {
    U32BigEndian(|s|);
  }

  lemma BodyLayout(version: Version, id: Bytes, tail: Bytes, body: Bytes)
    requires body == U16(version) + (LengthPrefixed(id) + tail)
    ensures |body| == 6 + |id| + |tail| && VersionAt(body, 0, version)
    ensures LengthAt(body, 2, |id|) && body[6..6 + |id|] == id && body[6 + |id|..] == tail
  {
    var rest := LengthPrefixed(id) + tail;
    U16BigEndian(version);
    PrefixLayout(id, tail);
    assert body[2..] == rest && forall i :: 0 <= i < |rest| ==> body[2 + i] == rest[i];
  }

  /** Decoding inverts encoding exactly when the UID's length fits its 32-bit prefix. */
  lemma PreimageRoundTripFits(e: Envelope)
    requires IdentityFits(e.identity)
    ensures DecodePreimage(Preimage(e)) == Ok(e) <==> |e.uid| < 0x1_0000_0000
  {
    PreimageParts(e);
    LengthPrefixedParts(e.uid, e.configHash.bytes);
  }

  /** ... in particular for every identity the operator accepts. */
  lemma PreimageRoundTrip(e: Envelope)
    requires Valid(e.identity)
    ensures DecodePreimage(Preimage(e)) == Ok(e) <==> |e.uid| < 0x1_0000_0000
  {
    ValidIsEncodable(e.identity);
    PreimageRoundTripFits(e);
  }

  // ---------- which byte strings are envelopes ----------

  /** An identity domain followed by exactly five well-formed fields. */
  predicate IdentityWellFormed(enc: Bytes) {
    && |IdentityDomain| <= |enc| && enc[..|IdentityDomain|] == IdentityDomain
    && WellFormed(enc[|IdentityDomain|..])
    && FieldsOf(enc[|IdentityDomain|..]).Ok? && |FieldsOf(enc[|IdentityDomain|..]).value| == 5
  }

  /** A UID under its length, and exactly 32 bytes after it. */
  predicate TailWellFormed(tail: Bytes) {
    |tail| >= 4 && |tail| == 4 + FromU32(tail[..4]) + 32
  }

  /** Two bytes of version, a well-formed identity after its length, and a well-formed tail. */
  predicate IsBody(body: Bytes, version: Bytes, idLen: Bytes, enc: Bytes, tail: Bytes) {
    && body == version + (idLen + (enc + tail))
    && |version| == 2 && |idLen| == 4 && FromU32(idLen) == |enc|
    && IdentityWellFormed(enc) && TailWellFormed(tail)
  }

  ghost predicate BodyWellFormed(body: Bytes) {
    exists version, idLen, enc, tail :: IsBody(body, version, idLen, enc, tail)
  }

  ghost predicate EnvelopeWellFormed(pre: Bytes) {
    && |EnvelopeDomain| <= |pre| && pre[..|EnvelopeDomain|] == EnvelopeDomain
    && BodyWellFormed(pre[|EnvelopeDomain|..])
  }

  /** An identity's bytes decode and re-encode to themselves exactly when they are well formed. */
  lemma IdentityReencodesIff(enc: Bytes)
    ensures IdentityWellFormed(enc) <==> DecodeIdentity(enc).Ok? && IdentityBytes(DecodeIdentity(enc).value) == enc
  {
    var n := |IdentityDomain|;
    if DecodeIdentity(enc).Ok? {
      TupleOfDecoded(enc);
      var w := DecodeIdentity(enc).value;
      ReencodesIff(enc[n..]);
      assert enc == enc[..n] + enc[n..];
      assert IdentityBytes(w)[..n] == IdentityDomain && IdentityBytes(w)[n..] == EncodeFields(Tuple(w));
    }
  }

  lemma TailReencodes(tail: Bytes)
    ensures TailWellFormed(tail) <==> DecodeTail(tail).Ok?
    ensures DecodeTail(tail).Ok? ==>
              var (uid, configHash) := DecodeTail(tail).value;
              |uid| < 0x1_0000_0000 && LengthPrefixed(uid) + configHash.bytes == tail
  {
    if |tail| >= 4 && 4 + FromU32(tail[..4]) <= |tail| {
      PrefixAgain(tail);
    }
  }

  /** The identity and the tail of a body whose identity length is in range. */
  lemma BodySplit(body: Bytes, n: nat)
    requires 6 + n <= |body|
    ensures Take(body[6..], n) == body[6..6 + n] && Drop(body[6..], n) == body[6 + n..]
  {
  }

  /** With the identity length in range, decoding is decoding the parts. */
  lemma BodyOfParts(body: Bytes, n: nat)
    requires |body| >= 6 && n == FromU32(body[2..6]) && 6 + n <= |body|
    ensures DecodeBody(body) == Assemble(FromU16(body[..2]), DecodeIdentity(body[6..6 + n]), DecodeTail(body[6 + n..]))
  {
    BodySplit(body, n);
  }

  /** Otherwise nothing is left for the tail. */
  lemma BodyInRange(body: Bytes)
    requires DecodeBody(body).Ok?
    ensures |body| >= 6 && 6 + FromU32(body[2..6]) <= |body|
  {
    assert DecodeTail([]).Err?;
  }

  /** A decoded body's version, identity and tail. */
  lemma BodyParts(body: Bytes)
    requires DecodeBody(body).Ok?
    ensures
      var n, e := FromU32(body[2..6]), DecodeBody(body).value;
      && 6 + n <= |body| && e.version == FromU16(body[..2])
      && DecodeIdentity(body[6..6 + n]) == Ok(e.identity)
      && DecodeTail(body[6 + n..]) == Ok((e.uid, e.configHash))
  {
    BodyInRange(body);
    BodyOfParts(body, FromU32(body[2..6]));
  }

  /** Decoding parts put together is decoding the parts. */
  lemma BodyOfJoin(body: Bytes, version: Bytes, idLen: Bytes, enc: Bytes, tail: Bytes)
    requires body == version + (idLen + (enc + tail)) && |version| == 2 && |idLen| == 4 && FromU32(idLen) == |enc|
    ensures DecodeBody(body) == Assemble(FromU16(version), DecodeIdentity(enc), DecodeTail(tail))
  {
    assert body[..2] == version && body[2..6] == idLen && body[6..] == enc + tail;
    TakeDrop(enc, tail);
  }

  /** Parts that are the encodings of an envelope's parts make up its body. */
  lemma BodyOfEncoded(e: Envelope, version: Bytes, idLen: Bytes, enc: Bytes, tail: Bytes)
    requires U16(e.version) == version && IdentityBytes(e.identity) == enc && U32(|enc|) == idLen
    requires LengthPrefixed(e.uid) + e.configHash.bytes == tail
    ensures BodyBytes(e) == version + (idLen + (enc + tail))
  {
    assert (idLen + enc) + tail == idLen + (enc + tail);
  }

  lemma IdentityAgain(enc: Bytes, w: Identity)
    requires IdentityWellFormed(enc) && DecodeIdentity(enc) == Ok(w)
    ensures IdentityBytes(w) == enc
  {
    IdentityReencodesIff(enc);
  }

  lemma TailAgain(tail: Bytes, uid: Bytes, configHash: Digest)
    requires DecodeTail(tail) == Ok((uid, configHash))
    ensures LengthPrefixed(uid) + configHash.bytes == tail
  {
    TailReencodes(tail);
  }

  lemma IdentityDecodes(enc: Bytes)
    requires IdentityWellFormed(enc)
    ensures DecodeIdentity(enc).Ok?
  {
  }

  /** A well-formed body decodes, and is rebuilt from what was decoded. */
  lemma BodyAgain(body: Bytes, version: Bytes, idLen: Bytes, enc: Bytes, tail: Bytes)
    requires IsBody(body, version, idLen, enc, tail)
    ensures DecodeBody(body).Ok? && BodyBytes(DecodeBody(body).value) == body
  {
    IdentityDecodes(enc);
    TailReencodes(tail);
    BodyOfJoin(body, version, idLen, enc, tail);
    var e := DecodeBody(body).value;
    IdentityAgain(enc, e.identity);
    TailAgain(tail, e.uid, e.configHash);
    FromU16RoundTrip(version);
    FromU32RoundTrip(idLen);
    BodyOfEncoded(e, version, idLen, enc, tail);
  }

  /** Whatever was decoded fits its prefixes. */
  lemma DecodedFits(body: Bytes)
    requires DecodeBody(body).Ok?
    ensures Fits(DecodeBody(body).value)
  {
    var n, e := FromU32(body[2..6]), DecodeBody(body).value;
    BodyParts(body);
    IdentityDecodedFits(body[6..6 + n], e.identity);
    TailReencodes(body[6 + n..]);
  }

  lemma IdentityDecodedFits(enc: Bytes, w: Identity)
    requires DecodeIdentity(enc) == Ok(w) && |enc| < 0x1_0000_0000
    ensures IdentityFits(w)
  {
    TupleOfDecoded(enc);
    FieldsEncodable(enc[|IdentityDomain|..]);
  }

  lemma {:induction false} FieldsEncodable(body: Bytes)
    requires FieldsOf(body).Ok?
    ensures Encodable(FieldsOf(body).value)
    decreases |body|
  {
    if body != [] {
      FieldsEncodable(Drop(body[4..], FromU32(body[..4])));
    }
  }

  lemma EncodedTail(uid: Bytes, h: Bytes32)
    requires |uid| < 0x1_0000_0000
    ensures TailWellFormed(LengthPrefixed(uid) + h)
  {
    LengthPrefixedParts(uid, h);
  }

  lemma EncodedIdentity(w: Identity)
    requires Encodable(Tuple(w))
    ensures IdentityWellFormed(IdentityBytes(w))
  {
    IdentityRoundTrip(w);
    IdentityReencodesIff(IdentityBytes(w));
  }

  /** Encoding an envelope that fits gives a well-formed body. */
  lemma EncodedBody(e: Envelope)
    requires Fits(e)
    ensures BodyWellFormed(BodyBytes(e))
  {
    var version, enc, tail := U16(e.version), IdentityBytes(e.identity), LengthPrefixed(e.uid) + e.configHash.bytes;
    EncodedIdentity(e.identity);
    EncodedTail(e.uid, e.configHash.bytes);
    LengthRead(|enc|, U32(|enc|));
    BodyOfEncoded(e, version, U32(|enc|), enc, tail);
    assert IsBody(BodyBytes(e), version, U32(|enc|), enc, tail);
  }

  lemma BodyReencodesIff(body: Bytes)
    ensures BodyWellFormed(body) <==> DecodeBody(body).Ok? && BodyBytes(DecodeBody(body).value) == body
    ensures DecodeBody(body).Ok? ==> Fits(DecodeBody(body).value)
  {
    if version, idLen, enc, tail :| IsBody(body, version, idLen, enc, tail) {
      BodyAgain(body, version, idLen, enc, tail);
    }
    if DecodeBody(body).Ok? {
      DecodedFits(body);
      EncodedBody(DecodeBody(body).value);
    }
  }

  /** Re-encoding a decoded envelope gives the bytes back exactly when they are well formed. */
  lemma EnvelopeReencodesIff(pre: Bytes)
    ensures EnvelopeWellFormed(pre) <==> DecodePreimage(pre).Ok? && Preimage(DecodePreimage(pre).value) == pre
    ensures EnvelopeWellFormed(pre) ==> Fits(DecodePreimage(pre).value)
  {
    var n := |EnvelopeDomain|;
    if |pre| >= n {
      BodyReencodesIff(pre[n..]);
      assert pre == pre[..n] + pre[n..];
      if DecodePreimage(pre).Ok? {
        var e := DecodePreimage(pre).value;
        assert Preimage(e)[..n] == EnvelopeDomain && Preimage(e)[n..] == BodyBytes(e);
      }
    }
  }

  /** Every length in the envelope fits its 32-bit prefix. */
  predicate Fits(e: Envelope) {
    IdentityFits(e.identity) && |e.uid| < 0x1_0000_0000
  }

  /**
    A byte string is accepted, decoding and re-encoding to itself, exactly when it is the preimage of some
    envelope whose lengths fit their prefixes; and that envelope is the one recovered.
   */
  lemma AcceptedIffPreimage(pre: Bytes)
    ensures EnvelopeWellFormed(pre) <==> exists e :: Fits(e) && Preimage(e) == pre
    ensures forall e :: Fits(e) && Preimage(e) == pre ==> DecodePreimage(pre) == Ok(e)
  {
    EnvelopeReencodesIff(pre);
    forall e | Fits(e) && Preimage(e) == pre
      ensures DecodePreimage(pre) == Ok(e)
    {
      PreimageRoundTripFits(e);
    }
  }

  /** Distinct envelopes never share a preimage, however long the UID. */
  lemma PreimageInjective(e: Envelope, f: Envelope)
    requires Valid(e.identity) && Valid(f.identity) && Preimage(e) == Preimage(f)
    ensures e == f
  {
    ValidIsEncodable(e.identity);
    ValidIsEncodable(f.identity);
    PreimageParts(e);
    PreimageParts(f);
    LastPartInjective(e.uid, e.configHash.bytes, f.uid, f.configHash.bytes);
  }

  /** The fixed-width end makes the UID's length recoverable even when its prefix wrapped. */
  lemma LastPartInjective(u: Bytes, h: Bytes32, u': Bytes, h': Bytes32)
    requires LengthPrefixed(u) + h == LengthPrefixed(u') + h'
    ensures u == u' && h == h'
  {
    var a, b := LengthPrefixed(u) + h, LengthPrefixed(u') + h';
    assert |u| == |u'|;
    assert a[4..4 + |u|] == u && b[4..4 + |u|] == u';
    assert a[4 + |u|..] == h && b[4 + |u|..] == h';
  }
}
