/**
  What every step of the delivery protocol keeps, whatever the schedule, the failures and
  the chain do.
 */
module DeliveryInvariants {
  import opened Types
  import opened PublisherState
  import opened Delivery

  // ---------- what belongs to whom ----------

  /** Revision number `n` was given to workload `id`. */
  ghost predicate Owned(s: Sys, n: nat, id: Digest) {
    1 <= n <= |s.revs| && s.revs[n - 1].id == id
  }

  ghost predicate TxOf(s: Sys, t: TxRef, n: nat) {
    t < |s.txs| && s.txs[t].number == n
  }

  /** A stored or copied workload state describes one revision and nothing of another. */
  ghost predicate RevOk(env: Env, s: Sys, id: Digest, rev: WorkloadState) {
    && Owned(s, rev.number, id)
    && s.revs[rev.number - 1].desired == rev.desired
    && rev.key == env.keyOf(rev.desired)
    && (rev.signature.Some? ==> env.Authentic(rev.desired, rev.signature.value))
    && (rev.prepared.Some? ==> TxOf(s, rev.prepared.value, rev.number))
  }

  ghost predicate TxOk(env: Env, s: Sys, tx: Tx) {
    && Owned(s, tx.number, tx.id)
    && tx.key == env.keyOf(s.revs[tx.number - 1].desired)
    && env.Authentic(s.revs[tx.number - 1].desired, tx.sig)
    && Publishable(tx.key, tx.sig)
    && tx.id in s.mem.state
  }

  /** No transaction of workload `id` is for a revision after `n`. */
  ghost predicate NoneAfter(s: Sys, id: Digest, n: nat) {
    forall i :: 0 <= i < |s.txs| && s.txs[i].id == id ==> s.txs[i].number <= n
  }

  // ---------- attempts that may still take effect ----------

  /** Every transaction prepared for revision `n` is known to have reverted. */
  ghost predicate NoLive(s: Sys, n: nat) {
    forall i :: 0 <= i < |s.txs| && s.txs[i].number == n ==> i in s.observed
  }

  /** Every transaction prepared for revision `n` except `t` is known to have reverted. */
  ghost predicate OnlyLive(s: Sys, n: nat, t: TxRef) {
    TxOf(s, t, n) && forall i :: 0 <= i < |s.txs| && s.txs[i].number == n ==> i == t || i in s.observed
  }

  /** Only failed prepares have used up signatures of revision `n`. */
  ghost predicate Unsigned(s: Sys, n: nat) {
    s.calls[SignOk(n)] <= s.calls[PrepareFailed(n)]
  }

  // ---------- what the log says of a key ----------

  /** Log position `p` is a record of `id` under key `k`, with our signature over desired revision `n`. */
  ghost predicate Vouches(env: Env, s: Sys, id: Digest, k: RevisionKey, p: nat, n: nat) {
    && p < |s.chain.log| && s.chain.log[p].id == id && s.chain.log[p].key == k
    && Owned(s, n, id) && env.keyOf(s.revs[n - 1].desired) == k
    && env.Authentic(s.revs[n - 1].desired, s.chain.log[p].sig)
  }

  ghost predicate Vouched(env: Env, s: Sys, id: Digest, k: RevisionKey) {
    exists p, n :: Vouches(env, s, id, k, p, n)
  }

  // ---------- the invariant ----------

  /** The worker of `id` holds a signature or a transaction not yet written back for revision `n`. */
  ghost predicate InFlight(s: Sys, id: Digest, n: nat) {
    id in s.workers && (s.workers[id].Preparing? || s.workers[id].Installing?) && s.workers[id].rev.number == n
  }

  ghost predicate Settled(s: Sys, id: Digest, st: WorkloadState) {
    st.confirmed == Some(st.key)
    || forall i :: 0 <= i < |s.txs| && s.txs[i].number == st.number ==>
         || i in s.observed || st.prepared == Some(i)
         || (id in s.workers && s.workers[id].Installing? && s.workers[id].tx == i)
  }

  ghost predicate MemOk(env: Env, s: Sys, id: Digest)
    requires id in s.mem.state
  {
    var st := s.mem.state[id];
    && RevOk(env, s, id, st)
    && NoneAfter(s, id, st.number)
    && Settled(s, id, st)
    && (st.confirmed.Some? ==> Vouched(env, s, id, st.confirmed.value))
    && (st.signature.None? && !InFlight(s, id, st.number) ==> Unsigned(s, st.number))
  }

  ghost predicate StageOk(env: Env, s: Sys, id: Digest, w: Worker) {
    match w
    case Reading(rev) =>
      && (if rev.prepared.Some? then OnlyLive(s, rev.number, rev.prepared.value) else NoLive(s, rev.number))
      && (rev.signature.None? ==> Unsigned(s, rev.number))
    case Signing(rev) => NoLive(s, rev.number) && Unsigned(s, rev.number)
    case Preparing(rev, sig) => NoLive(s, rev.number) && env.Authentic(rev.desired, sig)
    case Installing(rev, sig, tx) => OnlyLive(s, rev.number, tx) && env.Authentic(rev.desired, sig)
    case Sending(rev, tx) => OnlyLive(s, rev.number, tx)
    case Waiting(rev, tx) => OnlyLive(s, rev.number, tx)
    case Rereading(rev, tx) => OnlyLive(s, rev.number, tx)
    case Confirming(rev) => Vouched(env, s, id, rev.key)
    case Discarding(rev, tx) => OnlyLive(s, rev.number, tx) && tx in s.observed
    case _ => true
  }

  ghost predicate WorkOk(env: Env, s: Sys, id: Digest)
    requires id in s.workers
  {
    var w := s.workers[id];
    w.HasRev() ==>
      && RevOk(env, s, id, w.rev)
      && id in s.mem.state && w.rev.number <= s.mem.state[id].number
      && NoneAfter(s, id, w.rev.number)
      && StageOk(env, s, id, w)
  }

  /** Of two transactions of one revision the older has reverted; of one workload, the older is not for a newer revision. */
  ghost predicate PrepareOrder(s: Sys) {
    forall i, j :: 0 <= i < j < |s.txs| ==>
      && (s.txs[i].number == s.txs[j].number ==> i in s.observed)
      && (s.txs[i].id == s.txs[j].id ==> s.txs[i].number <= s.txs[j].number)
  }

  ghost predicate CallsOk(s: Sys) {
    forall n: nat {:trigger SignOk(n)} ::
      && s.calls[SignOk(n)] <= 1 + s.calls[PrepareFailed(n)]
      && (n > |s.revs| ==> s.calls[SignOk(n)] == 0)
  }

  ghost predicate AllMem(env: Env, s: Sys) {
    forall id :: id in s.mem.state ==> MemOk(env, s, id)
  }

  ghost predicate AllWork(env: Env, s: Sys) {
    forall id :: id in s.workers ==> WorkOk(env, s, id)
  }

  ghost predicate AllTx(env: Env, s: Sys) {
    forall i :: 0 <= i < |s.txs| ==> TxOk(env, s, s.txs[i])
  }

  ghost predicate Core(env: Env, s: Sys) {
    s.mem.counter == |s.revs| && AllMem(env, s) && AllWork(env, s) && AllTx(env, s) && PrepareOrder(s) && CallsOk(s)
  }

  // ---------- the chain ----------

  ghost predicate Logged(s: Sys, t: TxRef, p: nat)
    requires t < |s.txs|
  {
    p < |s.chain.log| && s.chain.log[p] == Entry(s.txs[t].id, s.txs[t].key, s.txs[t].sig, Some(t))
  }

  ghost predicate ReceiptOk(s: Sys, t: TxRef)
    requires t in s.chain.receipts
  {
    && t < |s.txs| && s.txs[t].nonce < s.chain.next
    && (s.chain.receipts[t] ==> exists p :: Logged(s, t, p))
  }

  ghost predicate PoolOk(s: Sys, n: nat)
    requires n in s.chain.pool
  {
    && s.chain.next <= n
    && match s.chain.pool[n]
       case Ours(t) => t < |s.txs| && s.txs[t].nonce == n && t in s.chain.sent
       case Theirs(write) => write.Some? ==> write.value.source.None?
  }

  /** A logged record of ours is what its transaction carries, and the transaction succeeded. */
  ghost predicate EntryOk(s: Sys, p: nat)
    requires p < |s.chain.log|
  {
    s.chain.log[p].source.Some? ==>
      var t := s.chain.log[p].source.value;
      t < |s.txs| && Logged(s, t, p) && t in s.chain.receipts && s.chain.receipts[t]
  }

  /** Our records are logged in nonce order, each nonce at most once. */
  ghost predicate NonceOrder(s: Sys) {
    forall p, q :: 0 <= p < q < |s.chain.log| && s.chain.log[p].source.Some? && s.chain.log[q].source.Some? ==>
      var t, u := s.chain.log[p].source.value, s.chain.log[q].source.value;
      t < |s.txs| && u < |s.txs| && s.txs[t].nonce < s.txs[u].nonce
  }

  ghost predicate ObservedOk(s: Sys) {
    forall t :: t in s.observed ==> t in s.chain.receipts && !s.chain.receipts[t]
  }

  ghost predicate ReceiptsOk(s: Sys) {
    forall t :: t in s.chain.receipts ==> ReceiptOk(s, t)
  }

  ghost predicate PoolsOk(s: Sys) {
    forall n :: n in s.chain.pool ==> PoolOk(s, n)
  }

  ghost predicate EntriesOk(s: Sys) {
    forall p :: 0 <= p < |s.chain.log| ==> EntryOk(s, p)
  }

  ghost predicate SentOk(s: Sys) {
    forall t :: t in s.chain.sent ==> t < |s.txs|
  }

  ghost predicate ChainOk(s: Sys) {
    SentOk(s) && ObservedOk(s) && ReceiptsOk(s) && PoolsOk(s) && EntriesOk(s) && NonceOrder(s)
  }

  ghost predicate Inv(env: Env, s: Sys) {
    Core(env, s) && ChainOk(s)
  }

  // ---------- one workload's step leaves the others alone ----------

  /** Histories only grow, and apart from the chain and the queue only what belongs to `id` changes. */
  ghost predicate Around(s: Sys, s': Sys, id: Digest) {
    && s.revs <= s'.revs && s.chain.log <= s'.chain.log && s.observed <= s'.observed
    && (s'.txs == s.txs || (|s'.txs| == |s.txs| + 1 && s.txs <= s'.txs
                            && s'.txs[|s.txs|].id == id && Owned(s, s'.txs[|s.txs|].number, id)))
    && (forall o :: o != id ==>
          && (o in s.mem.state <==> o in s'.mem.state)
          && (o in s.mem.state ==> s'.mem.state[o] == s.mem.state[o])
          && (o in s.workers <==> o in s'.workers)
          && (o in s.workers ==> s'.workers[o] == s.workers[o]))
    && (forall n: nat {:trigger SignOk(n)} :: !Owned(s, n, id) ==>
          s'.calls[SignOk(n)] == s.calls[SignOk(n)] && s'.calls[PrepareFailed(n)] == s.calls[PrepareFailed(n)])
  }

  lemma VouchedGrows(env: Env, s: Sys, s': Sys, id: Digest, k: RevisionKey)
    requires s.revs <= s'.revs && s.chain.log <= s'.chain.log
    requires Vouched(env, s, id, k)
    ensures Vouched(env, s', id, k)
  {
    var p, n :| Vouches(env, s, id, k, p, n);
    assert Vouches(env, s', id, k, p, n);
  }

  /** What is known of another workload's revision stays known. */
  lemma OthersNumber(s: Sys, s': Sys, id: Digest, o: Digest, n: nat)
    requires Around(s, s', id) && o != id && Owned(s, n, o)
    ensures Owned(s', n, o) && s'.revs[n - 1] == s.revs[n - 1]
    ensures NoLive(s, n) ==> NoLive(s', n)
    ensures forall t :: OnlyLive(s, n, t) ==> OnlyLive(s', n, t)
    ensures Unsigned(s, n) == Unsigned(s', n)
    ensures forall t :: TxOf(s, t, n) ==> TxOf(s', t, n)
    ensures NoneAfter(s, o, n) ==> NoneAfter(s', o, n)
  {
    assert SignOk(n) == SignOk(n);
  }

  lemma OthersStage(env: Env, s: Sys, s': Sys, id: Digest, o: Digest, w: Worker)
    requires Around(s, s', id) && o != id
    requires w.HasRev() && Owned(s, w.rev.number, o) && StageOk(env, s, o, w)
    ensures StageOk(env, s', o, w)
  {
    OthersNumber(s, s', id, o, w.rev.number);
    if w.Confirming? {
      VouchedGrows(env, s, s', o, w.rev.key);
    }
  }

  lemma OthersSettled(s: Sys, s': Sys, id: Digest, o: Digest, st: WorkloadState)
    requires Around(s, s', id) && o != id && Owned(s, st.number, o) && Settled(s, o, st)
    ensures Settled(s', o, st)
  {
  }

  lemma OthersMem(env: Env, s: Sys, s': Sys, id: Digest, o: Digest)
    requires Around(s, s', id) && o != id
    requires o in s.mem.state && MemOk(env, s, o)
    ensures o in s'.mem.state && MemOk(env, s', o)
  {
    OthersNumber(s, s', id, o, s.mem.state[o].number);
    OthersSettled(s, s', id, o, s.mem.state[o]);
    if s.mem.state[o].confirmed.Some? {
      VouchedGrows(env, s, s', o, s.mem.state[o].confirmed.value);
    }
  }

  lemma OthersWork(env: Env, s: Sys, s': Sys, id: Digest, o: Digest)
    requires Around(s, s', id) && o != id
    requires o in s.workers && WorkOk(env, s, o)
    ensures o in s'.workers && WorkOk(env, s', o)
  {
    var w := s.workers[o];
    if w.HasRev() {
      OthersNumber(s, s', id, o, w.rev.number);
      OthersStage(env, s, s', id, o, w);
    }
  }

  lemma CarryMem(env: Env, s: Sys, s': Sys, id: Digest)
    requires AllMem(env, s) && Around(s, s', id)
    requires id in s'.mem.state ==> MemOk(env, s', id)
    ensures AllMem(env, s')
  {
    forall o | o in s'.mem.state
      ensures MemOk(env, s', o)
    {
      if o != id {
        OthersMem(env, s, s', id, o);
      }
    }
  }

  lemma CarryWork(env: Env, s: Sys, s': Sys, id: Digest)
    requires AllWork(env, s) && Around(s, s', id)
    requires id in s'.workers ==> WorkOk(env, s', id)
    ensures AllWork(env, s')
  {
    forall o | o in s'.workers
      ensures WorkOk(env, s', o)
    {
      if o != id {
        OthersWork(env, s, s', id, o);
      }
    }
  }

  lemma CarryTx(env: Env, s: Sys, s': Sys)
    requires AllTx(env, s) && s.revs <= s'.revs && s'.txs == s.txs && s.mem.state.Keys <= s'.mem.state.Keys
    requires PrepareOrder(s) && s.observed <= s'.observed
    ensures AllTx(env, s') && PrepareOrder(s')
  {
  }

  /** It is enough to look at the workload that moved. */
  lemma Carry(env: Env, s: Sys, s': Sys, id: Digest)
    requires Core(env, s) && Around(s, s', id)
    requires s'.mem.counter == |s'.revs| && s.mem.state.Keys <= s'.mem.state.Keys && s'.txs == s.txs
    requires id in s'.mem.state ==> MemOk(env, s', id)
    requires id in s'.workers ==> WorkOk(env, s', id)
    requires CallsOk(s')
    ensures Core(env, s')
  {
    CarryMem(env, s, s', id);
    CarryWork(env, s, s', id);
    CarryTx(env, s, s');
  }
}
