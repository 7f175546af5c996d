/**
  The v2 delivery protocol as a state machine: `Enqueue` calls, queue workers and the chain
  interleave at the granularity of the publisher's lock and of its chain and KMS calls.
  The environment picks the schedule, every failure and every outcome.
 */
module Delivery {
  import opened Types
  import opened PublisherState

  /** What the publisher computes from a desired revision, and signature verification under its key. */
  datatype Env = Env(
    idOf: Desired -> Option<Digest>,
    keyOf: Desired -> RevisionKey,
    digestOf: Desired -> Digest,
    verify: (Digest, Bytes) -> bool)
  {
    /** `recordIsOurs`. */
    predicate Authentic(d: Desired, sig: Bytes) {
      sig != [] && verify(digestOf(d), sig)
    }
  }

  // ---------- the chain ----------

  /** A signed publish transaction, with the revision number it was prepared for. */
  datatype Tx = Tx(id: Digest, number: nat, key: RevisionKey, sig: Bytes, nonce: nat)

  /** One `AttestationPublished` event; `source` names our transaction, if it was one of ours. */
  datatype Entry = Entry(id: Digest, key: RevisionKey, sig: Bytes, source: Option<TxRef>)

  /** A pool transaction of the publishing account: ours, or one some other user of the account made. */
  datatype PoolTx = Ours(tx: TxRef) | Theirs(write: Option<Entry>)

  /** `next` is the account nonce; `receipts` holds the status of our mined transactions. */
  datatype Chain = Chain(
    next: nat,
    pool: map<nat, PoolTx>,
    sent: set<TxRef>,
    receipts: map<TxRef, bool>,
    log: seq<Entry>)

  /** The nonce the node hands out: the first one neither mined nor pooled. */
  predicate IsPendingNonce(c: Chain, n: nat) {
    c.next <= n && n !in c.pool && forall m {:trigger m in c.pool} :: c.next <= m < n ==> m in c.pool
  }

  /** The contract's own checks, which `Prepare` repeats. */
  predicate Publishable(key: RevisionKey, sig: Bytes) {
    key.version != 0 && sig != []
  }

  /** Nothing the contract refuses is in its log. */
  ghost predicate AllPublishable(log: seq<Entry>) {
    forall p :: 0 <= p < |log| ==> Publishable(log[p].key, log[p].sig)
  }

  /** `getLatest`: the newest logged record of a workload (see Registry.ProtocolReadsStorage). */
  function LatestOf(log: seq<Entry>, id: Digest): Option<Entry> {
    if log == [] then None
    else if log[|log| - 1].id == id then Some(log[|log| - 1])
    else LatestOf(log[..|log| - 1], id)
  }

  // ---------- the workers ----------

  /** How `process` returned: an error, (true, nil), or (false, nil). */
  datatype Outcome = Failed | Again | Finished

  /** Where a worker is; the revision is its private snapshot. */
  datatype Worker =
    | Started
    | Reading(rev: WorkloadState)
    | Signing(rev: WorkloadState)
    | Preparing(rev: WorkloadState, sig: Bytes)
    | Installing(rev: WorkloadState, sig: Bytes, tx: TxRef)
    | Sending(rev: WorkloadState, tx: TxRef)
    | Waiting(rev: WorkloadState, tx: TxRef)
    | Rereading(rev: WorkloadState, tx: TxRef)
    | Confirming(rev: WorkloadState)
    | Discarding(rev: WorkloadState, tx: TxRef)
    | Finishing(outcome: Outcome)
    | Ending
  {
    predicate HasRev() {
      !Started? && !Finishing? && !Ending?
    }
  }

  datatype SendOutcome = SendFault | SendUnknown | SendAccepted

  datatype WaitOutcome = WaitFault | WaitUnknown | WaitMinedSuccess | WaitReverted

  // ---------- the whole system ----------

  /** A desired revision, in the order of the numbers `Enqueue` gave out. */
  datatype Rev = Rev(id: Digest, desired: Desired)

  /** A call whose count the theorems bound, with the revision number it was made for. */
  datatype Call = SignOk(number: nat) | SignFailed(number: nat) | PrepareFailed(number: nat)

  /**
    The publisher's memory, the work queue (`dirty`, delayed re-adds in `backoff`, `Enqueue` calls
    that have not reached `queue.Add` in `adding`, and the ids being processed as `workers.Keys`),
    the chain, and the history the theorems speak about: every desired revision, every prepared
    transaction, every revert a worker was told of, and the counted calls.
   */
  datatype Sys = Sys(
    mem: Memory,
    dirty: set<Digest>,
    backoff: set<Digest>,
    adding: multiset<Digest>,
    workers: map<Digest, Worker>,
    chain: Chain,
    revs: seq<Rev>,
    txs: seq<Tx>,
    observed: set<TxRef>,
    calls: multiset<Call>)
  {
    function Move(id: Digest, w: Worker): Sys {
      this.(workers := workers[id := w])
    }

    /** The id is in the queue proper: dirty and not being processed. */
    predicate Queued(id: Digest) {
      id in dirty && id !in workers
    }
  }

  datatype Event =
    | EnqueueEv(d: Desired)
    | AddEv(id: Digest)
    | BackoffEv(id: Digest)
    | GetEv(id: Digest)
    | SnapshotEv(id: Digest)
    | LatestEv(id: Digest, readable: bool)
    | SignEv(id: Digest, signature: Option<Bytes>)
    | PrepareEv(id: Digest, nonce: Option<nat>)
    | InstallEv(id: Digest)
    | SendEv(id: Digest, sent: SendOutcome)
    | WaitEv(id: Digest, waited: WaitOutcome)
    | RereadEv(id: Digest, readable: bool)
    | ConfirmEv(id: Digest)
    | DiscardEv(id: Digest)
    | FinishEv(id: Digest)
    | DoneEv(id: Digest)
    | DeliverEv(tx: TxRef)
    | ForeignEv(slot: nat, write: Option<Entry>)
    | ForgetEv(slot: nat)
    | MineEv(success: bool)
  {
    /** A critical section that may write the publisher's memory. */
    predicate Writes() {
      EnqueueEv? || InstallEv? || ConfirmEv? || DiscardEv?
    }

    /** The work queue hands an id around. */
    predicate Queues() {
      AddEv? || BackoffEv? || GetEv? || FinishEv? || DoneEv?
    }

    /** A worker looks at the publisher's memory or at the registry. */
    predicate Looks() {
      SnapshotEv? || LatestEv? || RereadEv?
    }

    /** A worker calls KMS or the node. */
    predicate Calls() {
      SignEv? || PrepareEv? || SendEv? || WaitEv?
    }

    /** The chain moves by itself. */
    predicate OfChain() {
      DeliverEv? || ForeignEv? || ForgetEv? || MineEv?
    }
  }

  /** The record read is this revision, under our key. */
  predicate Matches(env: Env, rev: WorkloadState, onchain: Option<Entry>) {
    onchain.Some? && onchain.value.key == rev.key && env.Authentic(rev.desired, onchain.value.sig)
  }

  // ---------- the steps: each relates the state before to the state after ----------

  /** `Enqueue` up to its unlock; an identity that does not validate is an error and changes nothing. */
  predicate Enqueue(env: Env, s: Sys, d: Desired, s': Sys) {
    if env.idOf(d).None? then s' == s
    else
      var id := env.idOf(d).value;
      var (mem, add) := EnqueueLocked(s.mem, id, d, env.keyOf(d));
      s' == s.(mem := mem,
               revs := if mem.counter != s.mem.counter then s.revs + [Rev(id, d)] else s.revs,
               adding := if add then s.adding + multiset{id} else s.adding)
  }

  /** The `queue.Add` of an earlier `Enqueue`. */
  predicate QueueAdd(s: Sys, id: Digest, s': Sys) {
    id in s.adding && s' == s.(adding := s.adding - multiset{id}, dirty := s.dirty + {id})
  }

  /** A rate-limited re-add comes due. */
  predicate BackoffDue(s: Sys, id: Digest, s': Sys) {
    id in s.backoff && s' == s.(backoff := s.backoff - {id}, dirty := s.dirty + {id})
  }

  predicate QueueGet(s: Sys, id: Digest, s': Sys) {
    s.Queued(id) && s' == s.(dirty := s.dirty - {id}).Move(id, Started)
  }

  predicate Snapshot(s: Sys, id: Digest, s': Sys) {
    && id in s.workers && s.workers[id].Started?
    && var rev := SnapshotLocked(s.mem, id);
       s' == s.Move(id, if rev.Some? then Reading(rev.value) else Finishing(Finished))
  }

  /** Where `prepareOnce` starts, given what the snapshot already holds. */
  function PrepareOnce(rev: WorkloadState): Worker {
    if rev.prepared.Some? then Sending(rev, rev.prepared.value)
    else if rev.signature.Some? then Preparing(rev, rev.signature.value)
    else Signing(rev)
  }

  /** The query before the first `Prepare`. */
  predicate ReadLatest(env: Env, s: Sys, id: Digest, readable: bool, s': Sys) {
    && id in s.workers && s.workers[id].Reading?
    && var rev := s.workers[id].rev;
       s' == s.Move(id,
                    if !readable then Finishing(Failed)
                    else if Matches(env, rev, LatestOf(s.chain.log, id)) then Confirming(rev)
                    else PrepareOnce(rev))
  }

  /** A KMS call; kms.go returns only signatures that verify under the cached key (see Signer.SignDigest). */
  predicate Sign(env: Env, s: Sys, id: Digest, sig: Option<Bytes>, s': Sys) {
    && id in s.workers && s.workers[id].Signing?
    && var rev := s.workers[id].rev;
       if sig.Some? then
         && env.Authentic(rev.desired, sig.value)
         && s' == s.(calls := s.calls + multiset{SignOk(rev.number)}).Move(id, Preparing(rev, sig.value))
       else
         s' == s.(calls := s.calls + multiset{SignFailed(rev.number)}).Move(id, Finishing(Failed))
  }

  /** `Prepare` signs a transaction under the pending nonce, or fails without one. */
  predicate Prepare(s: Sys, id: Digest, nonce: Option<nat>, s': Sys) {
    && id in s.workers && s.workers[id].Preparing?
    && var Preparing(rev, sig) := s.workers[id];
       if nonce.Some? then
         && IsPendingNonce(s.chain, nonce.value)
         && Publishable(rev.key, sig)
         && s' == s.(txs := s.txs + [Tx(id, rev.number, rev.key, sig, nonce.value)])
                  .Move(id, Installing(rev, sig, |s.txs|))
       else
         s' == s.(calls := s.calls + multiset{PrepareFailed(rev.number)}).Move(id, Finishing(Failed))
  }

  predicate Install(s: Sys, id: Digest, s': Sys) {
    && id in s.workers && s.workers[id].Installing?
    && var Installing(rev, sig, tx) := s.workers[id];
       s' == s.(mem := InstallLocked(s.mem, id, rev, sig, tx)).Move(id, Sending(rev, tx))
  }

  /** A fault sends nothing; an accepted transaction is pooled; an unknown one may be, now or later. */
  predicate Send(s: Sys, id: Digest, outcome: SendOutcome, s': Sys) {
    && id in s.workers && s.workers[id].Sending?
    && var Sending(rev, tx) := s.workers[id];
       match outcome
       case SendFault => s' == s.Move(id, Finishing(Failed))
       case SendUnknown =>
         s' == s.(chain := s.chain.(sent := s.chain.sent + {tx})).Move(id, Waiting(rev, tx))
       case SendAccepted =>
         && tx < |s.txs| && s.chain.next <= s.txs[tx].nonce
         && s' == s.(chain := s.chain.(sent := s.chain.sent + {tx},
                                       pool := s.chain.pool[s.txs[tx].nonce := Ours(tx)]))
                  .Move(id, Waiting(rev, tx))
  }

  /** A definite outcome is what the receipt says; not knowing is always possible. */
  predicate Wait(s: Sys, id: Digest, outcome: WaitOutcome, s': Sys) {
    && id in s.workers && s.workers[id].Waiting?
    && var Waiting(rev, tx) := s.workers[id];
       match outcome
       case WaitFault => s' == s.Move(id, Finishing(Failed))
       case WaitUnknown => s' == s.Move(id, Rereading(rev, tx))
       case WaitMinedSuccess =>
         tx in s.chain.receipts && s.chain.receipts[tx] && s' == s.Move(id, Confirming(rev))
       case WaitReverted =>
         && tx in s.chain.receipts && !s.chain.receipts[tx]
         && s' == s.(observed := s.observed + {tx}).Move(id, Discarding(rev, tx))
  }

  /** The query after an unknown outcome. */
  predicate Reread(env: Env, s: Sys, id: Digest, readable: bool, s': Sys) {
    && id in s.workers && s.workers[id].Rereading?
    && var rev := s.workers[id].rev;
       s' == s.Move(id,
                    if readable && Matches(env, rev, LatestOf(s.chain.log, id)) then Confirming(rev)
                    else Finishing(Failed))
  }

  predicate Confirm(s: Sys, id: Digest, s': Sys) {
    && id in s.workers && s.workers[id].Confirming?
    && var (mem, again) := ConfirmLocked(s.mem, id, s.workers[id].rev);
       s' == s.(mem := mem).Move(id, Finishing(if again then Again else Finished))
  }

  predicate Discard(s: Sys, id: Digest, s': Sys) {
    && id in s.workers && s.workers[id].Discarding?
    && s' == s.(mem := DiscardLocked(s.mem, id, s.workers[id].rev.number)).Move(id, Finishing(Failed))
  }

  /** `processNext` after `process`: back off, add again, or neither. */
  predicate Requeue(s: Sys, id: Digest, s': Sys) {
    && id in s.workers && s.workers[id].Finishing?
    && match s.workers[id].outcome
       case Failed => s' == s.(backoff := s.backoff + {id}).Move(id, Ending)
       case Again => s' == s.(dirty := s.dirty + {id}).Move(id, Ending)
       case Finished => s' == s.Move(id, Ending)
  }

  predicate QueueDone(s: Sys, id: Digest, s': Sys) {
    id in s.workers && s.workers[id].Ending? && s' == s.(workers := s.workers - {id})
  }

  /** A node takes a transaction it was handed, at any time after the `Send`. */
  predicate Deliver(s: Sys, tx: TxRef, s': Sys) {
    && tx in s.chain.sent && tx < |s.txs| && s.chain.next <= s.txs[tx].nonce
    && s' == s.(chain := s.chain.(pool := s.chain.pool[s.txs[tx].nonce := Ours(tx)]))
  }

  /** Another user of the publishing account submits a transaction. */
  predicate Foreign(s: Sys, nonce: nat, write: Option<Entry>, s': Sys) {
    && s.chain.next <= nonce && (write.Some? ==> write.value.source.None?)
    && s' == s.(chain := s.chain.(pool := s.chain.pool[nonce := Theirs(write)]))
  }

  /** The node drops a pooled transaction. */
  predicate Forget(s: Sys, nonce: nat, s': Sys) {
    nonce in s.chain.pool && s' == s.(chain := s.chain.(pool := s.chain.pool - {nonce}))
  }

  /** The pool transaction at the account nonce is mined; it may revert, and must if the contract refuses it. */
  predicate Mine(s: Sys, success: bool, s': Sys) {
    && s.chain.next in s.chain.pool
    && var c := s.chain.(next := s.chain.next + 1, pool := s.chain.pool - {s.chain.next});
       match s.chain.pool[s.chain.next]
       case Ours(tx) =>
         && tx < |s.txs|
         && var t := s.txs[tx];
            && (success ==> Publishable(t.key, t.sig))
            && s' == s.(chain := c.(receipts := c.receipts[tx := success],
                                    log := if success then c.log + [Entry(t.id, t.key, t.sig, Some(tx))] else c.log))
       case Theirs(write) =>
         && (success && write.Some? ==> Publishable(write.value.key, write.value.sig))
         && s' == s.(chain := c.(log := if success && write.Some? then c.log + [write.value] else c.log))
  }

  predicate WriteNext(env: Env, s: Sys, e: Event, s': Sys)
    requires e.Writes()
  {
    match e
    case EnqueueEv(d) => Enqueue(env, s, d, s')
    case InstallEv(id) => Install(s, id, s')
    case ConfirmEv(id) => Confirm(s, id, s')
    case DiscardEv(id) => Discard(s, id, s')
  }

  predicate QueueNext(s: Sys, e: Event, s': Sys)
    requires e.Queues()
  {
    match e
    case AddEv(id) => QueueAdd(s, id, s')
    case BackoffEv(id) => BackoffDue(s, id, s')
    case GetEv(id) => QueueGet(s, id, s')
    case FinishEv(id) => Requeue(s, id, s')
    case DoneEv(id) => QueueDone(s, id, s')
  }

  predicate ChainNext(s: Sys, e: Event, s': Sys)
    requires e.OfChain()
  {
    match e
    case DeliverEv(tx) => Deliver(s, tx, s')
    case ForeignEv(slot, write) => Foreign(s, slot, write, s')
    case ForgetEv(slot) => Forget(s, slot, s')
    case MineEv(success) => Mine(s, success, s')
  }

  predicate LookNext(env: Env, s: Sys, e: Event, s': Sys)
    requires e.Looks()
  {
    match e
    case SnapshotEv(id) => Snapshot(s, id, s')
    case LatestEv(id, readable) => ReadLatest(env, s, id, readable, s')
    case RereadEv(id, readable) => Reread(env, s, id, readable, s')
  }

  predicate CallNext(env: Env, s: Sys, e: Event, s': Sys)
    requires e.Calls()
  {
    match e
    case SignEv(id, sig) => Sign(env, s, id, sig, s')
    case PrepareEv(id, nonce) => Prepare(s, id, nonce, s')
    case SendEv(id, sent) => Send(s, id, sent, s')
    case WaitEv(id, waited) => Wait(s, id, waited, s')
  }

  /** One step of the system. */
  predicate Next(env: Env, s: Sys, e: Event, s': Sys) {
    if e.Writes() then WriteNext(env, s, e, s')
    else if e.Queues() then QueueNext(s, e, s')
    else if e.OfChain() then ChainNext(s, e, s')
    else if e.Looks() then LookNext(env, s, e, s')
    else CallNext(env, s, e, s')
  }

  /**
    A process has just started: no memory, an empty queue, no worker. The chain is arbitrary:
    earlier records and whatever an earlier process left in the pool are nobody's of this run.
   */
  ghost predicate Fresh(s: Sys) {
    && s.mem == EmptyMemory
    && s.dirty == {} && s.backoff == {} && s.adding == multiset{} && s.workers == map[]
    && s.chain.sent == {} && s.chain.receipts == map[]
    && AllPublishable(s.chain.log) && (forall k :: 0 <= k < |s.chain.log| ==> s.chain.log[k].source.None?)
    && (forall n :: n in s.chain.pool ==>
          s.chain.next <= n && s.chain.pool[n].Theirs?
          && (s.chain.pool[n].write.Some? ==> s.chain.pool[n].write.value.source.None?))
    && s.revs == [] && s.txs == [] && s.observed == {} && s.calls == multiset{}
  }

  /** Events happen one after the other. */
  ghost predicate Steps(env: Env, states: seq<Sys>, events: seq<Event>) {
    && |states| == |events| + 1
    && forall k {:trigger events[k]} :: 0 <= k < |events| ==> Next(env, states[k], events[k], states[k + 1])
  }

  /** A run of one publisher process. */
  ghost predicate Run(env: Env, states: seq<Sys>, events: seq<Event>) {
    Steps(env, states, events) && Fresh(states[0])
  }
}
