/**
  When a revision that is not confirmed can still become so without a new request, and when it is stuck.
 */
module DeliveryProgress {
  import opened Types
  import opened PublisherState
  import opened Delivery
  import opened DeliveryInvariants
  import opened DeliverySteps
  import opened DeliveryTheorems
  import opened DeliveryOrder
  import opened DeliveryRequests

  // ---------- continuations ----------

  /** Nobody asks for anything, and nobody else uses the publishing account. */
  predicate OnItsOwn(e: Event) {
    !e.EnqueueEv? && !e.ForeignEv?
  }

  ghost predicate Connects(env: Env, a: Sys, b: Sys, states: seq<Sys>, events: seq<Event>) {
    && Steps(env, states, events) && states[0] == a && states[|events|] == b
    && forall k :: 0 <= k < |events| ==> OnItsOwn(events[k])
  }

  /** The system can get from one state to the other on its own. */
  ghost predicate Leads(env: Env, a: Sys, b: Sys) {
    exists states, events :: Connects(env, a, b, states, events)
  }

  lemma LeadsSelf(env: Env, s: Sys)
    ensures Leads(env, s, s)
  {
    assert Connects(env, s, s, [s], []);
  }

  lemma LeadsNext(env: Env, a: Sys, s: Sys, e: Event, s': Sys)
    requires Leads(env, a, s) && Next(env, s, e, s') && OnItsOwn(e)
    ensures Leads(env, a, s')
  {
    var states, events :| Connects(env, a, s, states, events);
    var states', events' := states + [s'], events + [e];
    forall k | 0 <= k < |events'|
      ensures Next(env, states'[k], events'[k], states'[k + 1])
    {
      if k < |events| {
        assert events'[k] == events[k] && states'[k] == states[k] && states'[k + 1] == states[k + 1];
      }
    }
    assert Connects(env, a, s', states', events');
  }

  lemma LeadsKeepsRevision(env: Env, a: Sys, b: Sys, id: Digest)
    requires Leads(env, a, b) && id in a.mem.state
    ensures id in b.mem.state && b.mem.state[id].key == a.mem.state[id].key
    ensures b.mem.state[id].desired == a.mem.state[id].desired
  {
    var states, events :| Connects(env, a, b, states, events);
    KeyStays(env, states, events, id, 0, |events|);
  }

  /** A continuation exists in which the revision now desired is confirmed. */
  ghost predicate CanConfirm(env: Env, s: Sys, id: Digest)
    requires id in s.mem.state
  {
    exists s' :: Leads(env, s, s') && id in s'.mem.state && s'.mem.state[id].confirmed == Some(s.mem.state[id].key)
  }

  // ---------- the condition ----------

  /** The nonce of the transaction went to another one: it will never be mined. */
  ghost predicate Dead(s: Sys, t: TxRef) {
    t < |s.txs| && t !in s.chain.receipts && s.txs[t].nonce < s.chain.next
  }

  /** The kept transaction is dead, or there is none and the contract refuses the version. */
  ghost predicate Hopeless(s: Sys, id: Digest)
    requires id in s.mem.state
  {
    var st := s.mem.state[id];
    if st.prepared.Some? then Dead(s, st.prepared.value) else st.key.version == 0
  }

  /** A transaction of the workload that can still be mined and would put the revision in the slot. */
  ghost predicate LiveMatch(env: Env, s: Sys, id: Digest, st: WorkloadState, i: TxRef) {
    Live(s, i) && s.txs[i].id == id && s.txs[i].key == st.key && env.Authentic(st.desired, s.txs[i].sig)
  }

  /** The slot shows the revision, or may come to show it by a transaction already handed over. */
  ghost predicate MayShow(env: Env, s: Sys, id: Digest, st: WorkloadState) {
    Matches(env, st, LatestOf(s.chain.log, id)) || exists i :: LiveMatch(env, s, id, st, i)
  }

  ghost predicate Stuck(env: Env, s: Sys, id: Digest)
    requires id in s.mem.state
  {
    Hopeless(s, id) && !MayShow(env, s, id, s.mem.state[id])
  }

  // ---------- building a continuation ----------

  /** Where a continuation started, and the workload it is about. */
  datatype Path = Path(env: Env, start: Sys, id: Digest)

  ghost predicate On(p: Path, s: Sys) {
    Leads(p.env, p.start, s) && Inv(p.env, s) && NoncesOk(s) && NoLoss(s, p.id)
  }

  lemma Go(p: Path, s: Sys, e: Event, s': Sys)
    requires On(p, s) && Next(p.env, s, e, s') && OnItsOwn(e) && !e.ForgetEv?
    ensures On(p, s')
  {
    LeadsNext(p.env, p.start, s, e, s');
    InvStep(p.env, s, e, s');
    NoncesStep(p.env, s, e, s');
    NoLossStep(p.env, s, e, s', p.id);
  }

  ghost predicate Arrived(p: Path) {
    exists s :: On(p, s) && p.id in s.mem.state && !Pending(s, p.id)
  }

  /** The worker of the workload is at this stage, with a snapshot of the current revision. */
  ghost predicate At(p: Path, s: Sys, w: Worker) {
    && On(p, s) && p.id in s.workers && s.workers[p.id] == w
    && w.HasRev() && p.id in s.mem.state && w.rev.number == s.mem.state[p.id].number
  }

  lemma FromConfirming(p: Path, s: Sys, rev: WorkloadState)
    requires At(p, s, Confirming(rev))
    ensures Arrived(p)
  {
    InvAgrees(p.env, s, p.id);
    var s' := s.(mem := ConfirmLocked(s.mem, p.id, rev).0).Move(p.id, Finishing(Finished));
    assert Confirm(s, p.id, s');
    Go(p, s, ConfirmEv(p.id), s');
  }

  lemma FromMined(p: Path, s: Sys, rev: WorkloadState, t: TxRef)
    requires At(p, s, Waiting(rev, t)) && t in s.chain.receipts && s.chain.receipts[t]
    ensures Arrived(p)
  {
    var s' := s.Move(p.id, Confirming(rev));
    assert Wait(s, p.id, WaitMinedSuccess, s');
    Go(p, s, WaitEv(p.id, WaitMinedSuccess), s');
    FromConfirming(p, s', rev);
  }

  // ---------- mining ----------

  /** The pool has everything from the account nonce up to `n`. */
  ghost predicate Gapless(c: Chain, n: nat) {
    forall m {:trigger m in c.pool} :: c.next <= m < n ==> m in c.pool
  }

  ghost predicate Mineable(s: Sys, t: TxRef) {
    && t < |s.txs| && t !in s.chain.receipts && s.chain.next <= s.txs[t].nonce
    && s.txs[t].nonce in s.chain.pool && s.chain.pool[s.txs[t].nonce] == Ours(t) && Gapless(s.chain, s.txs[t].nonce)
  }

  /** Only the chain has moved. */
  ghost predicate OnlyChain(s: Sys, s': Sys) {
    s' == s.(chain := s'.chain)
  }

  /** The transaction at the account nonce fails; a later one is as mineable as before. */
  lemma FailOne(s: Sys, t: TxRef) returns (s': Sys)
    requires PoolsOk(s) && Mineable(s, t) && s.chain.next < s.txs[t].nonce
    ensures Mine(s, false, s') && Mineable(s', t) && OnlyChain(s, s') && s'.chain.next == s.chain.next + 1
  {
    assert PoolOk(s, s.chain.next);
    var c := s.chain.(next := s.chain.next + 1, pool := s.chain.pool - {s.chain.next});
    match s.chain.pool[s.chain.next]
    case Ours(tx) => s' := s.(chain := c.(receipts := c.receipts[tx := false]));
    case Theirs(_) => s' := s.(chain := c);
  }

  lemma FailBefore(p: Path, s: Sys, t: TxRef) returns (s': Sys)
    requires On(p, s) && Mineable(s, t) && s.chain.next < s.txs[t].nonce
    ensures On(p, s') && Mineable(s', t) && OnlyChain(s, s') && s'.chain.next == s.chain.next + 1
  {
    s' := FailOne(s, t);
    Go(p, s, MineEv(false), s');
  }

  function EntryFor(s: Sys, t: TxRef): Entry
    requires t < |s.txs|
  {
    Entry(s.txs[t].id, s.txs[t].key, s.txs[t].sig, Some(t))
  }

  lemma MineIt(p: Path, s: Sys, t: TxRef) returns (s': Sys)
    requires On(p, s) && Mineable(s, t) && s.chain.next == s.txs[t].nonce
    ensures On(p, s') && OnlyChain(s, s') && t in s'.chain.receipts && s'.chain.receipts[t]
    ensures LatestOf(s'.chain.log, s.txs[t].id) == Some(EntryFor(s, t))
  {
    assert TxOk(p.env, s, s.txs[t]);
    var c := s.chain.(next := s.chain.next + 1, pool := s.chain.pool - {s.chain.next});
    s' := s.(chain := c.(receipts := c.receipts[t := true], log := c.log + [EntryFor(s, t)]));
    assert Mine(s, true, s');
    Go(p, s, MineEv(true), s');
    LatestAfter(s.chain.log, EntryFor(s, t), s.txs[t].id);
  }

  /** Everything before the transaction is mined and fails; then it succeeds. */
  lemma {:induction false} MineThrough(p: Path, s: Sys, t: TxRef) returns (s': Sys)
    requires On(p, s) && Mineable(s, t)
    ensures On(p, s') && OnlyChain(s, s') && t in s'.chain.receipts && s'.chain.receipts[t]
    ensures LatestOf(s'.chain.log, s.txs[t].id) == Some(EntryFor(s, t))
    decreases s.txs[t].nonce - s.chain.next
  {
    if s.chain.next == s.txs[t].nonce {
      s' := MineIt(p, s, t);
    } else {
      var s1 := FailBefore(p, s, t);
      s' := MineThrough(p, s1, t);
    }
  }

  // ---------- one pass of the worker ----------

  /** A transaction that has no receipt and whose nonce is free is sent, mined and confirmed. */
  lemma FromSendingLive(p: Path, s: Sys, rev: WorkloadState, t: TxRef)
    requires At(p, s, Sending(rev, t)) && t < |s.txs| && t !in s.chain.receipts
    requires s.chain.next <= s.txs[t].nonce && Gapless(s.chain, s.txs[t].nonce)
    ensures Arrived(p)
  {
    var s1 := s.(chain := s.chain.(sent := s.chain.sent + {t}, pool := s.chain.pool[s.txs[t].nonce := Ours(t)]))
               .Move(p.id, Waiting(rev, t));
    assert Send(s, p.id, SendAccepted, s1);
    Go(p, s, SendEv(p.id, SendAccepted), s1);
    var s2 := MineThrough(p, s1, t);
    FromMined(p, s2, rev, t);
  }

  /** A transaction with a receipt: the worker asks for its fate. */
  lemma ToWaiting(p: Path, s: Sys, rev: WorkloadState, t: TxRef) returns (s': Sys)
    requires At(p, s, Sending(rev, t))
    ensures At(p, s', Waiting(rev, t)) && s'.mem == s.mem && s'.chain == s.chain.(sent := s.chain.sent + {t})
  {
    s' := s.(chain := s.chain.(sent := s.chain.sent + {t})).Move(p.id, Waiting(rev, t));
    assert Send(s, p.id, SendUnknown, s');
    Go(p, s, SendEv(p.id, SendUnknown), s');
  }

  lemma FirstGap(pool: map<nat, PoolTx>, from: nat) returns (n: nat)
    ensures from <= n && n !in pool && forall m {:trigger m in pool} :: from <= m < n ==> m in pool
    decreases |pool|
  {
    if from in pool {
      var rest := pool - {from};
      assert rest.Keys == pool.Keys - {from};
      n := FirstGap(rest, from + 1);
      assert forall m {:trigger m in pool} :: from < m < n ==> m in rest;
    } else {
      n := from;
    }
  }

  lemma ToInstalling(p: Path, s: Sys, rev: WorkloadState, sig: Bytes) returns (s': Sys, t: TxRef)
    requires At(p, s, Preparing(rev, sig)) && rev.key.version != 0
    ensures At(p, s', Installing(rev, sig, t)) && s'.chain == s.chain && s'.mem == s.mem
    ensures t < |s'.txs| && t !in s'.chain.receipts && s'.chain.next <= s'.txs[t].nonce && Gapless(s'.chain, s'.txs[t].nonce)
  {
    assert WorkOk(p.env, s, p.id);
    var n := FirstGap(s.chain.pool, s.chain.next);
    t := |s.txs|;
    assert t in s.chain.receipts ==> ReceiptOk(s, t);
    s' := s.(txs := s.txs + [Tx(p.id, rev.number, rev.key, sig, n)]).Move(p.id, Installing(rev, sig, t));
    assert Prepare(s, p.id, Some(n), s');
    Go(p, s, PrepareEv(p.id, Some(n)), s');
  }

  lemma FromPreparing(p: Path, s: Sys, rev: WorkloadState, sig: Bytes)
    requires At(p, s, Preparing(rev, sig)) && rev.key.version != 0
    ensures Arrived(p)
  {
    var s1, t := ToInstalling(p, s, rev, sig);
    var s2 := s1.(mem := InstallLocked(s1.mem, p.id, rev, sig, t)).Move(p.id, Sending(rev, t));
    assert Install(s1, p.id, s2);
    Go(p, s1, InstallEv(p.id), s2);
    FromSendingLive(p, s2, rev, t);
  }

  lemma FromSigning(p: Path, s: Sys, rev: WorkloadState, sig: Bytes)
    requires At(p, s, Signing(rev)) && rev.key.version != 0 && p.env.Authentic(rev.desired, sig)
    ensures Arrived(p)
  {
    var s' := s.(calls := s.calls + multiset{SignOk(rev.number)}).Move(p.id, Preparing(rev, sig));
    assert Sign(p.env, s, p.id, Some(sig), s');
    Go(p, s, SignEv(p.id, Some(sig)), s');
    FromPreparing(p, s', rev, sig);
  }

  /** The first query, answered. */
  lemma Looked(p: Path, s: Sys, rev: WorkloadState) returns (s': Sys)
    requires At(p, s, Reading(rev))
    ensures p.id in s'.workers && s' == s.Move(p.id, s'.workers[p.id])
    ensures Matches(p.env, rev, LatestOf(s.chain.log, p.id)) ==> At(p, s', Confirming(rev))
    ensures !Matches(p.env, rev, LatestOf(s.chain.log, p.id)) ==> At(p, s', PrepareOnce(rev))
  {
    s' := s.Move(p.id, if Matches(p.env, rev, LatestOf(s.chain.log, p.id)) then Confirming(rev) else PrepareOnce(rev));
    assert ReadLatest(p.env, s, p.id, true, s');
    Go(p, s, LatestEv(p.id, true), s');
  }

  /** With nothing kept, a signature and a version the contract takes, the worker gets through. */
  lemma FromReadingNew(p: Path, s: Sys, rev: WorkloadState, sig: Bytes)
    requires At(p, s, Reading(rev)) && rev.prepared.None? && rev.key.version != 0 && p.env.Authentic(rev.desired, sig)
    ensures Arrived(p)
  {
    var s' := Looked(p, s, rev);
    if Matches(p.env, rev, LatestOf(s.chain.log, p.id)) {
      FromConfirming(p, s', rev);
    } else if rev.signature.Some? {
      FromPreparing(p, s', rev, rev.signature.value);
    } else {
      FromSigning(p, s', rev, sig);
    }
  }

  // ---------- from rest to a worker ----------

  /** The workload waits for a worker. */
  ghost predicate Resting(p: Path, s: Sys) {
    On(p, s) && p.id !in s.workers && Pending(s, p.id)
  }

  lemma ToDirty(p: Path, s: Sys) returns (s': Sys)
    requires Resting(p, s)
    ensures Resting(p, s') && p.id in s'.dirty && s'.mem == s.mem && s'.chain == s.chain && s'.txs == s.txs
  {
    if p.id in s.dirty {
      s' := s;
    } else if p.id in s.backoff {
      s' := s.(backoff := s.backoff - {p.id}, dirty := s.dirty + {p.id});
      assert BackoffDue(s, p.id, s');
      Go(p, s, BackoffEv(p.id), s');
    } else {
      s' := s.(adding := s.adding - multiset{p.id}, dirty := s.dirty + {p.id});
      assert QueueAdd(s, p.id, s');
      Go(p, s, AddEv(p.id), s');
    }
  }

  lemma ToStarted(p: Path, s: Sys) returns (s': Sys)
    requires Resting(p, s)
    ensures On(p, s') && p.id in s'.workers && s'.workers[p.id] == Started
    ensures s'.mem == s.mem && s'.chain == s.chain && s'.txs == s.txs
  {
    var s1 := ToDirty(p, s);
    s' := s1.(dirty := s1.dirty - {p.id}).Move(p.id, Started);
    assert QueueGet(s1, p.id, s');
    Go(p, s1, GetEv(p.id), s');
  }

  lemma ToReading(p: Path, s: Sys) returns (s': Sys)
    requires Resting(p, s)
    ensures At(p, s', Reading(s.mem.state[p.id])) && s'.mem == s.mem && s'.chain == s.chain && s'.txs == s.txs
  {
    var s2 := ToStarted(p, s);
    assert MemOk(p.env, s, p.id);
    s' := s2.Move(p.id, Reading(s.mem.state[p.id]));
    assert Snapshot(s2, p.id, s');
    Go(p, s2, SnapshotEv(p.id), s');
  }

  /** The slot shows the revision. */
  lemma FromShown(p: Path, s: Sys)
    requires Resting(p, s) && Matches(p.env, s.mem.state[p.id], LatestOf(s.chain.log, p.id))
    ensures Arrived(p)
  {
    var s1 := ToReading(p, s);
    var s2 := Looked(p, s1, s.mem.state[p.id]);
    FromConfirming(p, s2, s.mem.state[p.id]);
  }

  /** A transaction already handed over puts the revision in the slot. */
  lemma FromLiveMatch(p: Path, s: Sys, i: TxRef)
    requires Resting(p, s) && LiveMatch(p.env, s, p.id, s.mem.state[p.id], i)
    ensures Arrived(p)
  {
    var s1 := s.(chain := s.chain.(pool := s.chain.pool[s.txs[i].nonce := Ours(i)]));
    assert Deliver(s, i, s1);
    Go(p, s, DeliverEv(i), s1);
    assert Gapless(s1.chain, s1.txs[i].nonce);
    var s2 := MineThrough(p, s1, i);
    FromShown(p, s2);
  }

  /** Nothing is kept: a new attempt succeeds. */
  lemma FromNothing(p: Path, s: Sys, sig: Bytes)
    requires Resting(p, s) && s.mem.state[p.id].prepared.None? && s.mem.state[p.id].key.version != 0
    requires p.env.Authentic(s.mem.state[p.id].desired, sig)
    ensures Arrived(p)
  {
    var s1 := ToReading(p, s);
    FromReadingNew(p, s1, s.mem.state[p.id], sig);
  }

  /** `process` returned an error: the workload is put back and rests again. */
  lemma BackToRest(p: Path, s: Sys) returns (s': Sys)
    requires On(p, s) && p.id in s.workers && s.workers[p.id] == Finishing(Failed) && Pending(s, p.id)
    ensures Resting(p, s') && s'.mem == s.mem
  {
    var s1 := s.(backoff := s.backoff + {p.id}).Move(p.id, Ending);
    assert Requeue(s, p.id, s1);
    Go(p, s, FinishEv(p.id), s1);
    s' := s1.(workers := s1.workers - {p.id});
    assert QueueDone(s1, p.id, s');
    Go(p, s1, DoneEv(p.id), s');
  }

  /** The worker is told of the revert and drops the transaction. */
  lemma ToDiscarded(p: Path, s: Sys, rev: WorkloadState, t: TxRef) returns (s': Sys)
    requires At(p, s, Waiting(rev, t)) && t in s.chain.receipts && !s.chain.receipts[t] && Pending(s, p.id)
    ensures On(p, s') && p.id in s'.workers && s'.workers[p.id] == Finishing(Failed)
    ensures s'.mem == DiscardLocked(s.mem, p.id, rev.number)
  {
    var s1 := s.(observed := s.observed + {t}).Move(p.id, Discarding(rev, t));
    assert Wait(s, p.id, WaitReverted, s1);
    Go(p, s, WaitEv(p.id, WaitReverted), s1);
    s' := s1.(mem := DiscardLocked(s1.mem, p.id, rev.number)).Move(p.id, Finishing(Failed));
    assert Discard(s1, p.id, s');
    Go(p, s1, DiscardEv(p.id), s');
  }

  /** The kept transaction reverted: it is dropped and a new attempt succeeds. */
  lemma FromReverted(p: Path, s: Sys, rev: WorkloadState, t: TxRef, sig: Bytes)
    requires At(p, s, Sending(rev, t)) && t in s.chain.receipts && !s.chain.receipts[t] && Pending(s, p.id)
    requires s.mem.state[p.id].key.version != 0 && p.env.Authentic(s.mem.state[p.id].desired, sig)
    ensures Arrived(p)
  {
    var s1 := ToWaiting(p, s, rev, t);
    var s2 := ToDiscarded(p, s1, rev, t);
    var s3 := BackToRest(p, s2);
    FromNothing(p, s3, sig);
  }

  /** A worker about to send a transaction that is not dead gets through, perhaps with another one. */
  lemma FromSending(p: Path, s: Sys, rev: WorkloadState, t: TxRef, sig: Bytes)
    requires At(p, s, Sending(rev, t)) && t < |s.txs| && !Dead(s, t) && Pending(s, p.id)
    requires s.mem.state[p.id].key.version != 0 && p.env.Authentic(s.mem.state[p.id].desired, sig)
    ensures Arrived(p)
  {
    if t !in s.chain.receipts {
      assert Gapless(s.chain, s.txs[t].nonce);
      FromSendingLive(p, s, rev, t);
    } else if s.chain.receipts[t] {
      var s' := ToWaiting(p, s, rev, t);
      FromMined(p, s', rev, t);
    } else {
      FromReverted(p, s, rev, t, sig);
    }
  }

  lemma KeptIsPublishable(env: Env, s: Sys, id: Digest)
    requires Core(env, s) && id in s.mem.state && s.mem.state[id].prepared.Some?
    ensures s.mem.state[id].prepared.value < |s.txs| && s.mem.state[id].key.version != 0
  {
    assert MemOk(env, s, id);
    assert TxOk(env, s, s.txs[s.mem.state[id].prepared.value]);
  }

  /** A transaction is kept and is not dead. */
  lemma FromKept(p: Path, s: Sys, t: TxRef, sig: Bytes)
    requires Resting(p, s) && s.mem.state[p.id].prepared == Some(t) && !Dead(s, t)
    requires !Matches(p.env, s.mem.state[p.id], LatestOf(s.chain.log, p.id))
    requires p.env.Authentic(s.mem.state[p.id].desired, sig)
    ensures Arrived(p)
  {
    KeptIsPublishable(p.env, s, p.id);
    var s1 := ToReading(p, s);
    var s2 := Looked(p, s1, s.mem.state[p.id]);
    FromSending(p, s2, s.mem.state[p.id], t, sig);
  }

  lemma NotStuckArrives(p: Path, s: Sys, sig: Bytes)
    requires Resting(p, s) && !Stuck(p.env, s, p.id) && p.env.Authentic(s.mem.state[p.id].desired, sig)
    ensures Arrived(p)
  {
    var st := s.mem.state[p.id];
    if Matches(p.env, st, LatestOf(s.chain.log, p.id)) {
      FromShown(p, s);
    } else if i :| LiveMatch(p.env, s, p.id, st, i) {
      FromLiveMatch(p, s, i);
    } else if st.prepared.Some? {
      FromKept(p, s, st.prepared.value, sig);
    } else {
      FromNothing(p, s, sig);
    }
  }

  // ---------- a worker can always come back ----------

  /** How far a worker is from handing its id back, if every call fails. */
  function Distance(s: Sys, id: Digest): nat {
    if id !in s.workers then 0
    else
      match s.workers[id]
      case Ending => 1
      case Finishing(_) => 2
      case Installing(_, _, _) => 4
      case Started => 4
      case _ => 3
  }

  lemma QueueReturns(s: Sys, id: Digest) returns (e: Event, s': Sys)
    requires id in s.workers && (s.workers[id].Finishing? || s.workers[id].Ending?)
    ensures e.Queues() && QueueNext(s, e, s') && Distance(s', id) < Distance(s, id)
  {
    if s.workers[id].Ending? {
      e, s' := DoneEv(id), s.(workers := s.workers - {id});
    } else {
      e := FinishEv(id);
      s' := match s.workers[id].outcome
            case Failed => s.(backoff := s.backoff + {id}).Move(id, Ending)
            case Again => s.(dirty := s.dirty + {id}).Move(id, Ending)
            case Finished => s.Move(id, Ending);
    }
  }

  lemma LookFails(env: Env, s: Sys, id: Digest) returns (e: Event, s': Sys)
    requires id in s.workers && (s.workers[id].Started? || s.workers[id].Reading? || s.workers[id].Rereading?)
    ensures e.Looks() && LookNext(env, s, e, s') && Distance(s', id) < Distance(s, id)
  {
    if s.workers[id].Started? {
      var rev := SnapshotLocked(s.mem, id);
      e, s' := SnapshotEv(id), s.Move(id, if rev.Some? then Reading(rev.value) else Finishing(Finished));
    } else {
      e := if s.workers[id].Reading? then LatestEv(id, false) else RereadEv(id, false);
      s' := s.Move(id, Finishing(Failed));
    }
  }

  lemma CallFails(env: Env, s: Sys, id: Digest) returns (e: Event, s': Sys)
    requires id in s.workers
    requires s.workers[id].Signing? || s.workers[id].Preparing? || s.workers[id].Sending? || s.workers[id].Waiting?
    ensures e.Calls() && CallNext(env, s, e, s') && Distance(s', id) < Distance(s, id)
  {
    var n := s.workers[id].rev.number;
    match s.workers[id]
    case Signing(_) =>
      e, s' := SignEv(id, None), s.(calls := s.calls + multiset{SignFailed(n)}).Move(id, Finishing(Failed));
    case Preparing(_, _) =>
      e, s' := PrepareEv(id, None), s.(calls := s.calls + multiset{PrepareFailed(n)}).Move(id, Finishing(Failed));
    case Sending(_, _) =>
      e, s' := SendEv(id, SendFault), s.Move(id, Finishing(Failed));
    case Waiting(_, _) =>
      e, s' := WaitEv(id, WaitFault), s.Move(id, Finishing(Failed));
  }

  lemma WriteReturns(env: Env, s: Sys, id: Digest) returns (e: Event, s': Sys)
    requires id in s.workers && (s.workers[id].Installing? || s.workers[id].Confirming? || s.workers[id].Discarding?)
    ensures e.Writes() && !e.EnqueueEv? && WriteNext(env, s, e, s') && Distance(s', id) < Distance(s, id)
  {
    match s.workers[id]
    case Installing(rev, sig, tx) =>
      e, s' := InstallEv(id), s.(mem := InstallLocked(s.mem, id, rev, sig, tx)).Move(id, Sending(rev, tx));
    case Confirming(rev) =>
      var (mem, again) := ConfirmLocked(s.mem, id, rev);
      e, s' := ConfirmEv(id), s.(mem := mem).Move(id, Finishing(if again then Again else Finished));
    case Discarding(rev, _) =>
      e, s' := DiscardEv(id), s.(mem := DiscardLocked(s.mem, id, rev.number)).Move(id, Finishing(Failed));
  }

  lemma StepBack(p: Path, s: Sys) returns (s': Sys)
    requires On(p, s) && p.id in s.workers
    ensures On(p, s') && Distance(s', p.id) < Distance(s, p.id)
  {
    var w := s.workers[p.id];
    var e;
    if w.Finishing? || w.Ending? {
      e, s' := QueueReturns(s, p.id);
    } else if w.Started? || w.Reading? || w.Rereading? {
      e, s' := LookFails(p.env, s, p.id);
    } else if w.Installing? || w.Confirming? || w.Discarding? {
      e, s' := WriteReturns(p.env, s, p.id);
    } else {
      e, s' := CallFails(p.env, s, p.id);
    }
    Go(p, s, e, s');
  }

  lemma {:induction false} WorkerReturns(p: Path, s: Sys) returns (s': Sys)
    requires On(p, s)
    ensures On(p, s') && p.id !in s'.workers
    decreases Distance(s, p.id)
  {
    s' := s;
    if p.id in s.workers {
      var s1 := StepBack(p, s);
      s' := WorkerReturns(p, s1);
    }
  }

  // ---------- every run can be resolved ----------

  /** The workload is between passes, and its desired revision stuck. */
  ghost predicate RestsStuck(env: Env, s: Sys, id: Digest) {
    id in s.mem.state && Pending(s, id) && id !in s.workers && Stuck(env, s, id)
  }

  /** The system can get on its own to a state in which the revision now desired is confirmed, or rests stuck. */
  ghost predicate CanResolve(env: Env, s: Sys, id: Digest)
    requires id in s.mem.state
  {
    CanConfirm(env, s, id) || exists s' :: Leads(env, s, s') && RestsStuck(env, s', id)
  }

  /**
    From every reachable state, whatever the worker is doing, the system can on its own confirm the desired
    revision, or come to rest with it stuck: there is no other way to lose it.
   */
  lemma ConfirmedOrStuck(env: Env, states: seq<Sys>, events: seq<Event>, k: nat, id: Digest, sig: Bytes)
    requires Run(env, states, events) && NeverForgets(events) && k < |states| && id in states[k].mem.state
    requires env.Authentic(states[k].mem.state[id].desired, sig)
    ensures CanResolve(env, states[k], id)
  {
    InvAt(env, states, events, k);
    NoncesAt(env, states, events, k);
    NoLossAt(env, states, events, k, id);
    LeadsSelf(env, states[k]);
    Resolve(Path(env, states[k], id), states[k], sig);
  }

  lemma Resolve(p: Path, s: Sys, sig: Bytes)
    requires s == p.start && On(p, s) && p.id in s.mem.state && p.env.Authentic(s.mem.state[p.id].desired, sig)
    ensures CanResolve(p.env, s, p.id)
  {
    var s1 := WorkerReturns(p, s);
    LeadsKeepsRevision(p.env, s, s1, p.id);
    if Pending(s1, p.id) && !Stuck(p.env, s1, p.id) {
      NotStuckArrives(p, s1, sig);
      ArrivedConfirms(p);
    }
  }

  lemma ArrivedConfirms(p: Path)
    requires Arrived(p) && p.id in p.start.mem.state
    ensures CanConfirm(p.env, p.start, p.id)
  {
    var s :| On(p, s) && p.id in s.mem.state && !Pending(s, p.id);
    LeadsKeepsRevision(p.env, p.start, s, p.id);
  }
}
