/** internal/signer/kms.go: a KMS response is checked rather than trusted. */
module Signer {
  import opened Types

  datatype SignResponse = SignResponse(signature: Bytes, algorithmOk: bool, keyID: Option<string>)

  datatype SignError = CallFailed | NoResponse | EmptySignature | WrongAlgorithm | WrongKey | DoesNotVerify

  /** `call` is what the KMS client returned: an error, nothing, or a response. */
  method SignDigest(call: Result<Option<SignResponse>, ()>, keyID: string, digest: Digest, verify: (Digest, Bytes) -> bool)
    returns (r: Result<Bytes, SignError>)
    ensures r.Ok? ==> r.value != [] && verify(digest, r.value)
    ensures r.Ok? <==>
            && call.Ok? && call.value.Some?
            && var resp := call.value.value;
               resp.signature != [] && resp.algorithmOk && resp.keyID in {None, Some(keyID)} && verify(digest, resp.signature)
    ensures r.Ok? ==> r.value == call.value.value.signature
    ensures r == Err(CallFailed) <==> call.Err?
    ensures r == Err(NoResponse) <==> call == Ok(None)
    ensures r == Err(EmptySignature) <==> call.Ok? && call.value.Some? && call.value.value.signature == []
    ensures r == Err(WrongAlgorithm) <==>
            call.Ok? && call.value.Some? && call.value.value.signature != [] && !call.value.value.algorithmOk
    ensures r == Err(WrongKey) ==> call.Ok? && call.value.Some? && call.value.value.keyID !in {None, Some(keyID)}
    ensures r == Err(DoesNotVerify) ==>
              call.Ok? && call.value.Some? && call.value.value.keyID in {None, Some(keyID)}
              && !verify(digest, call.value.value.signature)
  {
    if call.Err? {
      return Err(CallFailed);
    }
    if call.value.None? {
      return Err(NoResponse);
    }
    var resp := call.value.value;
    if resp.signature == [] {
      return Err(EmptySignature);
    }
    if !resp.algorithmOk {
      return Err(WrongAlgorithm);
    }
    if resp.keyID.Some? && resp.keyID.value != keyID {
      return Err(WrongKey);
    }
    if !verify(digest, resp.signature) {
      return Err(DoesNotVerify);
    }
    return Ok(resp.signature);
  }
}
