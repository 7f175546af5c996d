# proof-of-deploy, verified

A Dafny model of the operator that observes Kubernetes Deployments, signs what it saw and records it in an
on-chain registry, with proofs about its delivery protocol, its wire encoding, its normal forms and its verifier.
`dafny verify dfyconfig.toml` checks everything.

## What is modelled

**Delivery (v2).** `Publisher.dfy` is the mutex-guarded memory of `PublisherV2`: each critical section is a
function on that memory and a method of a class that performs it in place. `Delivery.dfy` is the whole system as
a state machine whose steps are those critical sections and the calls between them: `Enqueue` up to its unlock
and then its `queue.Add`, a worker's snapshot, query, signature, prepare, install, send, wait, second query,
confirm, discard and requeue, and the chain's own moves. Every interleaving, every failure and every outcome is
allowed. The source starts one worker; the model allows one per workload, which the work queue guarantees, so it
has more runs than the program. The chain is an account nonce, a pool, mining in nonce order (the validity rule of
section 6 of the Ethereum Yellow Paper), receipts and the registry's log. Other users of the publishing account may
submit transactions, a node may take a transaction at any time after it was handed over, replace one under the same
nonce, or drop it, and a mined transaction may revert. `DeliveryInvariants.dfy` and `DeliverySteps.dfy` hold the
invariant and its proof; the theorems are in `DeliveryTheorems.dfy`, `DeliveryOrder.dfy`, `DeliverySlot.dfy` and
`DeliveryRequests.dfy` (what a worker does at each stage of a pass is at the end of the first), and runs showing that
their assumptions are needed in `DeliveryRuns.dfy`. `DeliveryProgress.dfy` and `DeliveryStuck.dfy` say exactly when an
unconfirmed revision can still be confirmed. There ids, keys and digests are arbitrary functions of a request;
`DeliveryBinding.dfy` says what the theorems mean once they are hashes.

**Registry.** `Registry.dfy` is the contract: storage and log, and what they have to do with each other.
`DeliveryRegistry.dfy` shows that the log of every delivery run is one the contract can have.

**Wire encoding.** `WireEncoding.dfy` has the identity and envelope encodings with their fixed-width lengths, and the
decoder of the independent checker. `Binding.dfy` says what the digests bind, `Signer.dfy` what the KMS signer returns.
SHA-256 and signature verification are arbitrary functions passed as parameters, so results read "the fields agree, or
these two byte strings collide".

**Normal forms.** `Quantity.dfy` is the decimal arithmetic and printing of resource quantities, `Sorting.dfy` the
comparators, `Normalize.dfy` and `NormalizeV1.dfy` the two projections of a Deployment (`Kube.dfy`): what goes into each
field, and exactly what each of them forgets. Hashing a normal form is a parameter.

**Reconcile and verify (v1).** `Controller.dfy` is the reconciler with its dedup cache, `Verify.dfy` the path from a
reconcile through the signing publisher to the verdict of `pod-verify`, over the whole life of the signing key: any
number of operator restarts, and the v2 publisher signing with the same key.

## Where the code and its comments differ

- `confirm` records the key of a superseded revision too (internal/publisher/publisher_v2.go:456-462), so `confirmed`
  means "was seen on chain".
- A request that repeats the confirmed key while another is desired is dropped, and the other stays desired
  (internal/publisher/publisher_v2.go:243-246). `LastRequestWins` gives the exact condition and
  `RepeatedRequestIsLost` the run, up to the other being published.
- A revision confirmed by reading the slot can afterwards be overwritten by an older, superseded transaction that was
  still pending (internal/publisher/publisher_v2.go:332-335), although records are mined in revision order:
  `ConfirmedYetOverwritten` is the run, `SlotIsSafeIff` the exact condition, `SlotHoldsConfirmed` the guarantee under it.
- The 32-bit length before a UID wraps for UIDs of 4 GiB and more. The preimage stays injective
  (`PreimageInjective`); decoding inverts it exactly below that length (`PreimageRoundTrip`).

## Model

| member | source | states |
|---|---|---|
| `PublisherState.PublisherV2.constructor` | internal/publisher/publisher_v2.go:174-191 | a new publisher remembers nothing and has given out no number |
| `PublisherState.PublisherV2.Enqueue` | internal/publisher/publisher_v2.go:230-266 | the critical section in place, field by field: `queue.Add` follows exactly unless the key was seen on chain; that key and the desired one change nothing, any other becomes desired under a new number with no attempt |
| `PublisherState.PublisherV2.Snapshot` | internal/publisher/publisher_v2.go:398-409 | a copy of the state exactly when something is desired and not confirmed |
| `PublisherState.PublisherV2.Install` | internal/publisher/publisher_v2.go:435-443 | signature and transaction are kept exactly if the revision is still current; nothing else changes |
| `PublisherState.PublisherV2.Confirm` | internal/publisher/publisher_v2.go:449-465 | the key is recorded as seen in any case; the transaction is cleared exactly if current, and otherwise more work is reported |
| `PublisherState.PublisherV2.DiscardAttempt` | internal/publisher/publisher_v2.go:467-473 | the transaction is dropped exactly if it is the current revision's; nothing else changes |
| `DeliverySteps.InvAt` | internal/publisher/publisher_v2.go:293-473 | the protocol invariant holds in every state of every run |
| `DeliveryTheorems.AtMostOnce` | internal/publisher/publisher_v2.go:367-394 | in any run no two successful transactions carry the same revision number |
| `DeliveryTheorems.PreparesBounded` | internal/publisher/publisher_v2.go:411-444 | a revision is prepared at most once more than the reverts its workers were told of |
| `DeliveryTheorems.SigningBounded` | internal/publisher/publisher_v2.go:418-433 | KMS calls for a revision are at most one plus its failed signs and failed prepares |
| `DeliveryTheorems.AttemptOwnership` | internal/publisher/publisher_v2.go:247-262 | the stored key, signature and transaction always belong to the current number, whose request names this workload |
| `DeliveryTheorems.StaleWorkersTouchNothing` | internal/publisher/publisher_v2.go:435-473 | numbers only grow; only a worker of the same revision changes an attempt, and other workloads' steps change nothing |
| `DeliveryTheorems.SpentIsNeverResent` | internal/publisher/publisher_v2.go:375-380 | a transaction is never sent again once a worker was told it reverted |
| `DeliveryTheorems.ConfirmedIsLogged` | internal/publisher/publisher_v2.go:325-391 | a confirmed key is in the log for that workload, with our signature over a revision that was asked for and whose identity gives that workload's id |
| `DeliveryTheorems.NoLostWork` | internal/publisher/publisher_v2.go:293-315 | an unconfirmed desired revision is queued, in backoff, being worked, or held by an unfinished `Enqueue`; a worker that is only finishing does not count |
| `DeliveryTheorems.IdleMeansConfirmed` | internal/publisher/publisher_v2.go:32-58 | when queue and workers are empty, every desired revision is confirmed and vouched for by the log |
| `DeliveryTheorems.RequestIsQueued` | internal/publisher/publisher_v2.go:230-266 | in every run a request is followed by `queue.Add` exactly unless its key was seen on chain, so a workload in backoff is taken up at once |
| `DeliveryTheorems.FailuresEndThePass` | internal/publisher/publisher_v2.go:325-394 | every failed call, unreadable registry and reverted transaction ends the pass with an error, with nothing sent or prepared |
| `DeliveryTheorems.LookDecides` | internal/publisher/publisher_v2.go:325-347 | a look confirms exactly a record with the revision's key whose signature verifies; otherwise the kept transaction is sent, or one is signed and prepared for |
| `DeliveryOrder.RecordsInOrder` | internal/publisher/publisher_v2.go:411-444 | if pooled transactions are never dropped, a workload's records are mined in strictly increasing revision order |
| `DeliveryOrder.RecordsInOrderIff` | internal/chain/client_v2.go:146-163 | with transactions dropped or not: of two records of a workload the later is of the newer revision exactly when it is of the later prepare, and its nonce is always the greater |
| `DeliveryOrder.SlotIsSafeIff` | internal/publisher/publisher_v2.go:332-335 | a slot keeps its key whatever the chain does next exactly when no live transaction of the workload carries another key |
| `DeliverySlot.SlotHoldsConfirmed` | internal/publisher/publisher_v2.go:367-394 | the slot holds the confirmed desired key on every run whose confirming reads meet that condition |
| `DeliveryRequests.LastRequestWins` | internal/publisher/publisher_v2.go:243-262 | after the last request the desired key is the requested one exactly when the request was not shadowed by the confirmed key |
| `DeliveryRequests.RestartIsFree` | internal/publisher/publisher_v2.go:325-335 | a process that starts with nothing while the slot holds our record for d, is asked only for d, and sees no foreign write to the slot, never signs, prepares or sends for it, and the slot keeps the record |
| `DeliveryRequests.RestartBegins` | internal/chain/client_v2.go:160-163 | losing all publisher state yields a starting state of the next process; account nonce, log and what pooled transactions will write stay, and so does our record in the slot |
| `DeliveryRuns.RepeatedRequestIsLost` | internal/publisher/publisher_v2.go:243-246 | for any two signable revisions of a workload, a run with requests A, B, A and no more that comes to rest with B published and confirmed |
| `DeliveryRuns.ConfirmedYetOverwritten` | internal/publisher/publisher_v2.go:332-335 | for any two signable revisions, a run in which B is confirmed by a read and a pending A is then mined over it |
| `DeliveryRuns.ForgottenBreaksOrder` | internal/chain/client_v2.go:146-159 | for any two signable revisions, a run in which dropped pool transactions let an older revision be mined after a newer one |
| `DeliveryRuns.TakenNonceStrands` | internal/publisher/publisher_v2.go:337-365 | for any signable revision, a run in which another transaction takes the nonce of the kept one and the revision is stuck |
| `DeliveryProgress.ConfirmedOrStuck` | internal/publisher/publisher_v2.go:293-473 | from every reachable state, whatever its worker is doing, the system can on its own confirm the desired revision or come to rest with it stuck |
| `DeliveryStuck.CanConfirmIff` | internal/publisher/publisher_v2.go:337-394 | between two passes, a desired revision can still be confirmed without a new request exactly when its kept transaction is not dead (with none kept: the contract takes its version), or the slot shows it or a transaction handed over may put it there |
| `DeliveryBinding.ConfirmedIsDesired` | internal/publisher/publisher_v2.go:195-222 | when the desired key is confirmed, a logged record has the desired version, config hash, incarnation and our fingerprint, field by field, and verifies over the envelope of exactly the desired revision; or a request is exhibited that the compared digests confuse with it |
| `DeliveryBinding.ConfirmedWasSigned` | internal/publisher/publisher_v2.go:205-222 | if the key signed only known messages, the confirmed revision was signed as exactly that envelope, or a collision is exhibited |
| `Registry.AttestationRegistryV2.constructor` | contracts/contracts/AttestationRegistryV2.sol:102-105 | the contract starts empty with its publisher fixed |
| `Registry.AttestationRegistryV2.PublishCall` | contracts/contracts/AttestationRegistryV2.sol:107-149 | each of the three reverts exactly when its check fails, changing nothing; otherwise the event and the slot carry the call field by field and no other slot changes |
| `Registry.AttestationRegistryV2.GetLatest` | contracts/contracts/AttestationRegistryV2.sol:153-176 | the stored record, or all zero |
| `Registry.StorageRefinesLog` | contracts/contracts/AttestationRegistryV2.sol:118-176 | after any calls by any senders storage is the last logged event, zero if none; recorded iff version nonzero iff signature nonempty |
| `Registry.LogIsComplete` | contracts/contracts/AttestationRegistryV2.sol:140-148 | the log is the accepted calls, in order, field by field |
| `Registry.StorageIsLastCall` | contracts/contracts/AttestationRegistryV2.sol:118-176 | after any calls a slot holds the last accepted call for it field by field, the time cut to 64 bits, and reads all zero if there was none |
| `Registry.ProtocolReadsStorage` | internal/chain/client_v2.go:361-405 | the record the protocol reads is the one the contract's storage returns, field by field |
| `DeliveryRegistry.RunsOnContract` | contracts/contracts/AttestationRegistryV2.sol:118-149 | for every state of every run there are contract calls that leave exactly its log, and what the protocol reads is what storage then holds |
| `WireEncoding.AppendLengthPrefixed` | internal/attest/identity.go:106-109 | a 32-bit length, most significant byte first, and the bytes are appended |
| `WireEncoding.Validate` | internal/attest/identity.go:68-91 | no error exactly for five non-empty fields within the bound; each error names a field that is empty, or too long when none is empty |
| `WireEncoding.Encode` | internal/attest/identity.go:120-133 | domain, then cluster, API version, kind, namespace and name each under its length; an error exactly when the identity is invalid |
| `WireEncoding.DecodeFields` | internal/attest/testdata/_envelope_v2/reference.py:88-92 | the decoder's loop yields the fields, or fails on a short length |
| `WireEncoding.FieldsRoundTrip` | internal/attest/testdata/_envelope_v2/reference.py:89-92 | decoding inverts encoding, with no assumption about separators in fields |
| `WireEncoding.ReencodesIff` | internal/attest/testdata/_envelope_v2/reference.py:88-103 | re-encoding what was decoded gives the bytes back exactly when they are well formed |
| `WireEncoding.IdentityRoundTrip` | internal/attest/identity.go:115-133 | an encoded identity decodes to itself |
| `WireEncoding.AcceptedIffEncoded` | internal/attest/testdata/_envelope_v2/reference.py:88-103 | the checker accepts exactly the encodings of five-field tuples |
| `WireEncoding.SigningPreimage` | internal/attest/envelope.go:95-109 | the preimage, or an error exactly when the identity is invalid |
| `WireEncoding.PreimageLayout` | internal/attest/envelope.go:79-109 | which bytes of a preimage are the version, the identity and its length, the UID and its length, and the config hash |
| `WireEncoding.PreimageRoundTrip` | internal/attest/testdata/_envelope_v2/reference.py:94-100 | decoding inverts the preimage, nested identity included, exactly when the UID's length fits 32 bits |
| `WireEncoding.EnvelopeReencodesIff` | internal/attest/testdata/_envelope_v2/reference.py:88-103 | a byte string decodes as an envelope and re-encodes to itself exactly when it is well formed: the domain, a version, a nested identity under its own domain and length, a UID under its length, 32 bytes after it |
| `WireEncoding.AcceptedIffPreimage` | internal/attest/envelope.go:95-109 | the well-formed strings are exactly the preimages of envelopes whose lengths fit, and decoding recovers that envelope |
| `WireEncoding.PreimageInjective` | internal/attest/envelope.go:92-109 | distinct envelopes have distinct preimages, for every UID |
| `Binding.SigningDigestBinds` | internal/attest/envelope.go:117-123 | equal signing digests: version, five identity fields, UID and config hash agree, or the preimages collide |
| `Binding.WorkloadIDBinds` | internal/attest/identity.go:140-146 | equal workload ids: equal identities or a collision |
| `Binding.IncarnationBinds` | internal/attest/envelope.go:72-77 | equal incarnations: equal UIDs, a collision, or one UID absent and the other hashing to the reserved zero |
| `Binding.SameKeySameRevision` | internal/publisher/publisher_v2.go:268-275 | requests with one id and one key are one revision, short of a collision |
| `Binding.SigningDigestV1Binds` | internal/attest/version.go:129-135 | equal v1 digests: version and config hash agree, or a collision |
| `Binding.PreimageV1Layout` | internal/attest/version.go:129-135 | which bytes v1 signs: domain, version, config hash |
| `Binding.DomainsAreSeparate` | internal/attest/envelope.go:55-60 | identity, incarnation, v1 and v2 preimages are pairwise disjoint |
| `Binding.HarvestedSignatureRefused` | internal/publisher/publisher_v2.go:205-222 | whatever messages of v1 and v2 the key signed, a record is accepted for a revision only if exactly that envelope was signed, short of a collision |
| `Binding.MessageInjective` | internal/attest/version.go:111-135 | no two messages the key may sign, v1 or v2, share a preimage |
| `Signer.SignDigest` | internal/signer/kms.go:175-210 | exactly the consistent responses are returned, and they verify under the cached key; each error is given for its own fault |
| `Quantity.CanonicalQuantity` | internal/attest/normalize.go:196-216 | the loop computes the canonical string |
| `Quantity.StripKeepsValue` | internal/attest/normalize.go:203-211 | stripping keeps the value and ends in a form with no trailing fractional zero |
| `Quantity.RenderDetermines` | internal/attest/normalize.go:215-215 | the rendered string determines numerator and denominator |
| `Quantity.CanonicalIffSameValue` | internal/attest/normalize.go:180-216 | two quantities of any sign and scale render alike exactly when they are the same number |
| `Quantity.CanonicalIsTheNumeral` | internal/attest/normalize.go:180-216 | every plain numeral of the value with no superfluous zero at either end and no sign on zero is the canonical string |
| `Quantity.CanonicalIsNumeral` | internal/attest/normalize.go:180-216 | the canonical string of every quantity is such a numeral of its value |
| `Sorting.LessStrings` | internal/attest/normalize.go:220-227 | the loop is the lexicographic order: at the first difference the smaller element comes first, or the slice that ends |
| `Sorting.StringOrders` | internal/attest/normalize.go:220-227 | string order and slice order are strict total orders |
| `Sorting.StringLessIff` | internal/attest/normalize.go:223-223 | strings are in dictionary order: at the first difference the smaller character comes first, or the string that ends |
| `Sorting.StringsLaws` | internal/attest/normalize.go:220-227 | a smaller element after a common prefix comes first, and a prefix before what it begins: with totality, no other order |
| `Sorting.AnySortAgrees` | internal/attest/normalize.go:115-128 | under a strict total order any sorted permutation is the same one |
| `Normalize.FilterLabels` | internal/attest/normalize.go:82-91 | the labels under their own keys, minus exactly the six generated keys |
| `Normalize.LabelKernel` | internal/attest/normalize.go:82-91 | filtered labels are equal exactly when the labels agree off the generated keys |
| `Normalize.ReqOrder` | internal/attest/normalize.go:119-128 | the requirement comparator is a strict total order |
| `Normalize.ReqLaws` | internal/attest/normalize.go:119-128 | requirements are ordered by key, then operator, then values |
| `Normalize.NormalizeSelector` | internal/attest/normalize.go:95-130 | the loops and sorts compute the selector's form whatever sort is used: labels as they are, each requirement with its key, operator and ascending values, in ascending order |
| `Normalize.SelectorKernel` | internal/attest/normalize.go:95-130 | selector forms are equal exactly when labels and bags of (key, operator, bag of values) agree |
| `Normalize.QuantityKernel` | internal/attest/normalize.go:172-178 | quantity maps are equal exactly when the same resources have the same values |
| `Normalize.NormalizeEnvRefs` | internal/attest/normalize_v2.go:162-172 | names, literal flags and sources in declared order, each in its own field |
| `Normalize.NormalizeContainersV2` | internal/attest/normalize_v2.go:125-153 | each of the eighteen fields of each container in its own place, in declared order, nil lists empty |
| `Normalize.V2Kernel` | internal/attest/normalize_v2.go:56-104 | v2 normal forms are equal exactly when the Deployments agree up to generated labels, nil versus empty, env values, selector order and quantity notation |
| `Normalize.V2Fields` | internal/attest/normalize_v2.go:56-104 | the v2 normal form field by field: everything in its own place, labels filtered, requirements ordered |
| `NormalizeV1.EnvNames` | internal/attest/normalize.go:153-160 | the names, ascending, as often as declared |
| `NormalizeV1.NormalizeContainers` | internal/attest/normalize.go:136-148 | name, image, env names and resources of each container in their own fields, names not descending; the only such list when names are distinct |
| `NormalizeV1.V1Kernel` | internal/attest/normalize.go:62-77 | with distinct container names, v1 forms are equal exactly when the Deployments agree on what v1 hashes up to the order of containers, env entries and requirements |
| `NormalizeV1.V1Fields` | internal/attest/normalize.go:62-77 | the v1 normal form field by field; omitted replicas are one |
| `NormalizeV1.V2RefinesV1` | internal/attest/normalize_v2.go:56-104 | equal v2 forms and equal defaulted replicas give equal v1 forms |
| `Controller.DeploymentReconciler.constructor` | internal/controller/deployment_controller.go:180-183 | the cache starts empty |
| `Controller.DeploymentReconciler.Reconcile` | internal/controller/deployment_controller.go:77-154 | a job is enqueued and remembered exactly for a Deployment with its latest spec observed and all four counts the wanted one, whose hash is new; a deletion forgets, a failed read is retried |
| `Controller.DedupRefines` | internal/controller/deployment_controller.go:77-154 | a workload's jobs are its converged hashes with consecutive repeats collapsed, restarting after each deletion |
| `Controller.JobsAreObserved` | internal/controller/deployment_controller.go:97-126 | every job goes back to a read with its hash under version 1, the latest spec observed, and updated, ready, available and total replicas all equal to the wanted number, one if none is given |
| `Controller.ReconcileAddsIff` | internal/controller/deployment_controller.go:155-178 | such a read with a hash that is not the remembered one adds exactly one job; any other read adds none |
| `Controller.DeploymentIDBinds` | internal/attest/hash.go:56-62 | equal v1 ids are of one namespace and name, or two texts collide, for namespaces without a slash |
| `Verify.PassIsAuthentic` | internal/publisher/publisher.go:104-146 | if only the operator uses the key, in any number of processes and for v2 envelopes too, a PASS goes back to a converged observation with that hash under that version, or the preimage collides with a signed one |
| `Verify.PassMeansObservedConfiguration` | cmd/verify/main.go:97-167 | the same in terms of configuration: this very workload was observed converged with the live Deployment's normal form, or a collision is exhibited |
| `Verify.FailIffRefuted` | cmd/verify/main.go:97-167 | FAIL is given exactly when what was read is against the live Deployment or the record, and an error exactly when nothing can be said |

## Left out

- SHA-256, ECDSA, DER and X.509 parsing, AWS KMS and go-ethereum internals are parameters with the contracts stated above.
- `encoding/json` output: results are on normal forms, and hashing a form is a parameter.
- RPC dialing, ABI decoding, timeouts, backoff durations, logging, flags and printing.
- Startup validation in internal/chain/validate.go and key validation when a KMS signer is built: shallow checks.
- Reorgs, finality, and exactly-once across a crash with a pending transaction, which the program does not provide.
- Liveness of publication under a fair schedule: what is proved is when a confirming continuation exists.
- Queue shutdown: runs are of a process that has not begun to stop.
- The order in which the work queue hands out ready ids: any ready id may come next.
- The 64-bit width of the publisher's revision counter: numbers are unbounded.
- A read of the registry returns the current record; a node that lags behind the log is not modelled.
- The v1 contract: `pod-verify` is given an arbitrary record.
- Fields of upstream Kubernetes types below the ones listed in `Kube.dfy`: embedded whole, as the source does.
- `inf.Dec.String` and `big.Int.QuoRem` are not in the repository; they are modelled by their documented behaviour.
- The checker's UTF-8 decoding of fields: fields are byte strings.
- EnvelopeReencodesIff: the checker takes whatever follows the UID as the config hash; the model's decoder insists on the 32 bytes an envelope has, so tails of other widths, which the checker also round-trips, are outside it.
- NormalizeContainers: with repeated container names it promises a name-sorted permutation, not which one, because the source's sort is unstable.
