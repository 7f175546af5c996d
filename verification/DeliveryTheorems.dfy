/** What the delivery protocol guarantees over every run of a publisher process. */
module DeliveryTheorems {
  import opened Types
  import opened PublisherState
  import opened Delivery
  import opened DeliveryInvariants
  import opened DeliverySteps

  /** The revision number behind a logged record of ours. */
  ghost function NumberAt(s: Sys, p: nat): nat
    requires p < |s.chain.log| && s.chain.log[p].source.Some? && s.chain.log[p].source.value < |s.txs|
  {
    s.txs[s.chain.log[p].source.value].number
  }

  ghost predicate OursAt(s: Sys, p: nat) {
    p < |s.chain.log| && s.chain.log[p].source.Some? && s.chain.log[p].source.value < |s.txs|
  }

  // ---------- at most once ----------

  lemma OnceInState(s: Sys, p: nat, q: nat)
    requires ChainOk(s) && PrepareOrder(s) && p < q && OursAt(s, p) && OursAt(s, q)
    ensures NumberAt(s, p) != NumberAt(s, q)
  {
    assert EntryOk(s, p) && EntryOk(s, q);
    var t, u := s.chain.log[p].source.value, s.chain.log[q].source.value;
    assert s.txs[t].nonce < s.txs[u].nonce;
    assert t < u || u < t;
  }

  /** No revision is published twice: its number has at most one successful transaction in any run. */
  lemma AtMostOnce(env: Env, states: seq<Sys>, events: seq<Event>, k: nat, p: nat, q: nat)
    requires Run(env, states, events) && k < |states|
    requires p < q && OursAt(states[k], p) && OursAt(states[k], q)
    ensures NumberAt(states[k], p) != NumberAt(states[k], q)
  {
    InvAt(env, states, events, k);
    OnceInState(states[k], p, q);
  }

  ghost function PreparedFor(s: Sys, n: nat): set<TxRef> {
    set i | 0 <= i < |s.txs| && s.txs[i].number == n
  }

  /** A revision is prepared once, and once more for each revert a worker was told of. */
  lemma PreparesBounded(env: Env, states: seq<Sys>, events: seq<Event>, k: nat, n: nat)
    requires Run(env, states, events) && k < |states|
    ensures |PreparedFor(states[k], n)| <= 1 + |PreparedFor(states[k], n) * states[k].observed|
  {
    InvAt(env, states, events, k);
    var s := states[k];
    var all, known := PreparedFor(s, n), PreparedFor(s, n) * s.observed;
    if t :| t in all && t !in s.observed {
      forall i | i in all
        ensures i in known + {t}
      {
        assert i < t || t < i || i == t;
      }
      SubsetSize(all, known + {t});
    } else {
      SubsetSize(all, known);
    }
  }

  lemma SubsetSize<T>(a: set<T>, b: set<T>)
    requires a <= b
    ensures |a| <= |b|
  {
    assert b == a + (b - a);
  }

  /** KMS is called for a revision at most once more than its failed signs and failed prepares. */
  lemma SigningBounded(env: Env, states: seq<Sys>, events: seq<Event>, k: nat, n: nat)
    requires Run(env, states, events) && k < |states|
    ensures
      var calls := states[k].calls;
      calls[SignOk(n)] + calls[SignFailed(n)] <= 1 + calls[SignFailed(n)] + calls[PrepareFailed(n)]
  {
    InvAt(env, states, events, k);
    assert SignOk(n) == SignOk(n);
  }

  // ---------- every revision was asked for, for its own workload ----------

  /** The identity of every desired revision gives the id it was recorded under. */
  ghost predicate Requested(env: Env, s: Sys) {
    forall n :: 0 <= n < |s.revs| ==> env.idOf(s.revs[n].desired) == Some(s.revs[n].id)
  }

  lemma RevsKept(env: Env, s: Sys, e: Event, s': Sys)
    requires Next(env, s, e, s') && !e.EnqueueEv?
    ensures s'.revs == s.revs
  {
  }

  lemma {:induction false} RequestedAt(env: Env, states: seq<Sys>, events: seq<Event>, k: nat)
    requires Run(env, states, events) && k < |states|
    ensures Requested(env, states[k])
  {
    if k != 0 {
      RequestedAt(env, states, events, k - 1);
      assert Next(env, states[k - 1], events[k - 1], states[k]);
      if !events[k - 1].EnqueueEv? {
        RevsKept(env, states[k - 1], events[k - 1], states[k]);
      }
    }
  }

  // ---------- attempts belong to the current revision ----------

  /** What memory holds for a workload is the revision its number was given for, and nothing of another. */
  ghost predicate HoldsItsOwn(env: Env, s: Sys, id: Digest)
    requires id in s.mem.state
  {
    var st := s.mem.state[id];
    && 1 <= st.number <= |s.revs| && s.revs[st.number - 1] == Rev(id, st.desired)
    && env.idOf(st.desired) == Some(id) && st.key == env.keyOf(st.desired)
    && (st.signature.Some? ==> env.Authentic(st.desired, st.signature.value))
    && (st.prepared.Some? ==>
          && st.prepared.value < |s.txs|
          && var tx := s.txs[st.prepared.value];
             tx.id == id && tx.number == st.number && tx.key == st.key && env.Authentic(st.desired, tx.sig))
  }

  lemma OwnInState(env: Env, s: Sys, id: Digest)
    requires Core(env, s) && Requested(env, s) && id in s.mem.state
    ensures HoldsItsOwn(env, s, id)
  {
    assert MemOk(env, s, id);
    if s.mem.state[id].prepared.Some? {
      assert TxOk(env, s, s.txs[s.mem.state[id].prepared.value]);
    }
  }

  lemma AttemptOwnership(env: Env, states: seq<Sys>, events: seq<Event>, k: nat, id: Digest)
    requires Run(env, states, events) && k < |states| && id in states[k].mem.state
    ensures HoldsItsOwn(env, states[k], id)
  {
    InvAt(env, states, events, k);
    RequestedAt(env, states, events, k);
    OwnInState(env, states[k], id);
  }

  /** A step of the worker of `id`, or the queue giving it one. */
  predicate ActsOn(e: Event, id: Digest) {
    && !e.EnqueueEv? && !e.AddEv? && !e.BackoffEv? && !e.OfChain()
    && e.id == id
  }

  ghost predicate SameWorker(s: Sys, s': Sys, id: Digest) {
    (id in s.workers <==> id in s'.workers) && (id in s.workers ==> s'.workers[id] == s.workers[id])
  }

  lemma WorkerKeptQueue(s: Sys, e: Event, s': Sys, id: Digest)
    requires e.Queues() && QueueNext(s, e, s') && !ActsOn(e, id)
    ensures SameWorker(s, s', id)
  {
  }

  lemma WorkerKeptChain(s: Sys, e: Event, s': Sys, id: Digest)
    requires e.OfChain() && ChainNext(s, e, s')
    ensures SameWorker(s, s', id)
  {
  }

  lemma WorkerKeptWrite(env: Env, s: Sys, e: Event, s': Sys, id: Digest)
    requires e.Writes() && WriteNext(env, s, e, s') && !ActsOn(e, id)
    ensures SameWorker(s, s', id)
  {
  }

  lemma WorkerKeptLook(env: Env, s: Sys, e: Event, s': Sys, id: Digest)
    requires e.Looks() && LookNext(env, s, e, s') && !ActsOn(e, id)
    ensures SameWorker(s, s', id)
  {
  }

  lemma WorkerKeptCall(env: Env, s: Sys, e: Event, s': Sys, id: Digest)
    requires e.Calls() && CallNext(env, s, e, s') && !ActsOn(e, id)
    ensures SameWorker(s, s', id)
  {
  }

  /** Only its own steps move a worker. */
  lemma WorkerKept(env: Env, s: Sys, e: Event, s': Sys, id: Digest)
    requires Next(env, s, e, s') && !ActsOn(e, id)
    ensures SameWorker(s, s', id)
  {
    if e.Writes() {
      WorkerKeptWrite(env, s, e, s', id);
    } else if e.Queues() {
      WorkerKeptQueue(s, e, s', id);
    } else if e.OfChain() {
      WorkerKeptChain(s, e, s', id);
    } else if e.Looks() {
      WorkerKeptLook(env, s, e, s', id);
    } else {
      WorkerKeptCall(env, s, e, s', id);
    }
  }

  /** The event is a step of the worker of `id`, or the `Enqueue` of a revision of `id`. */
  predicate Concerns(env: Env, e: Event, id: Digest) {
    (e.EnqueueEv? && env.idOf(e.d) == Some(id)) || ((e.InstallEv? || e.ConfirmEv? || e.DiscardEv?) && e.id == id)
  }

  /** Only four kinds of step write the publisher's memory. */
  lemma MemoryKept(env: Env, s: Sys, e: Event, s': Sys)
    requires Next(env, s, e, s') && !e.Writes()
    ensures s'.mem == s.mem
  {
  }

  /** The attempt in memory changes only by a newer revision, or by a worker of the same revision. */
  lemma AttemptStep(env: Env, s: Sys, e: Event, s': Sys, id: Digest)
    requires Next(env, s, e, s') && id in s.mem.state && s.mem.state[id].number <= s.mem.counter
    ensures id in s'.mem.state
    ensures !Concerns(env, e, id) ==> s'.mem.state[id] == s.mem.state[id]
    ensures
      var st, st' := s.mem.state[id], s'.mem.state[id];
      || SameAttempt(st, st')
      || (e.EnqueueEv? && st'.number > st.number && st'.signature.None? && st'.prepared.None?)
      || ((e.InstallEv? || e.ConfirmEv? || e.DiscardEv?) && st'.number == st.number
          && id in s.workers && s.workers[id].HasRev() && s.workers[id].rev.number == st.number)
  {
    if !e.Writes() {
      MemoryKept(env, s, e, s');
    }
  }

  predicate SameAttempt(st: WorkloadState, st': WorkloadState) {
    && st'.desired == st.desired && st'.number == st.number && st'.key == st.key
    && st'.signature == st.signature && st'.prepared == st.prepared
  }

  /**
    In every run, a step that is not the workload's own leaves its state alone, and no worker of an
    older revision installs, clears or discards the attempt of a newer one.
   */
  lemma StaleWorkersTouchNothing(env: Env, states: seq<Sys>, events: seq<Event>, k: nat, id: Digest)
    requires Run(env, states, events) && k < |events| && id in states[k].mem.state
    ensures id in states[k + 1].mem.state
    ensures !Concerns(env, events[k], id) ==> states[k + 1].mem.state[id] == states[k].mem.state[id]
    ensures
      var st, st' := states[k].mem.state[id], states[k + 1].mem.state[id];
      st'.number >= st.number
    ensures
      var st, st' := states[k].mem.state[id], states[k + 1].mem.state[id];
      !events[k].EnqueueEv? && !SameAttempt(st, st') ==>
        && id in states[k].workers && states[k].workers[id].HasRev()
        && states[k].workers[id].rev.number == st.number
  {
    InvAt(env, states, events, k);
    assert MemOk(env, states[k], id);
    assert Next(env, states[k], events[k], states[k + 1]);
    AttemptStep(env, states[k], events[k], states[k + 1], id);
  }

  // ---------- a reverted transaction is spent ----------

  /** What the workload's memory and worker hold, if it may still be sent, is not known to have reverted. */
  ghost predicate Unspent(s: Sys, id: Digest) {
    && (id in s.mem.state && s.mem.state[id].prepared.Some? && s.mem.state[id].prepared.value in s.observed ==>
          id in s.workers && s.workers[id].Discarding? && s.workers[id].tx == s.mem.state[id].prepared.value)
    && (id in s.workers ==>
          match s.workers[id]
          case Reading(rev) => rev.prepared.Some? ==> rev.prepared.value !in s.observed
          case Installing(_, _, tx) => tx !in s.observed
          case Sending(_, tx) => tx !in s.observed
          case Waiting(_, tx) => tx !in s.observed
          case _ => true)
  }

  /** The transactions a workload holds are its own. */
  ghost predicate HoldsOwn(s: Sys, id: Digest) {
    && (id in s.mem.state && s.mem.state[id].prepared.Some? ==>
          TxOf(s, s.mem.state[id].prepared.value, s.mem.state[id].number) && Owned(s, s.mem.state[id].number, id))
    && (id in s.workers && s.workers[id].HasRev() ==>
          && Owned(s, s.workers[id].rev.number, id)
          && (s.workers[id].Reading? && s.workers[id].rev.prepared.Some? ==>
                TxOf(s, s.workers[id].rev.prepared.value, s.workers[id].rev.number))
          && (s.workers[id].Installing? || s.workers[id].Sending? || s.workers[id].Waiting? || s.workers[id].Discarding? ==>
                TxOf(s, s.workers[id].tx, s.workers[id].rev.number)))
  }

  lemma InvHoldsOwn(env: Env, s: Sys, id: Digest)
    requires Core(env, s)
    ensures HoldsOwn(s, id)
  {
    if id in s.mem.state {
      assert MemOk(env, s, id);
    }
    if id in s.workers {
      assert WorkOk(env, s, id);
    }
  }

  /** Steps that observe no new revert, of another workload. */
  lemma UnspentElsewhere(env: Env, s: Sys, e: Event, s': Sys, id: Digest)
    requires Next(env, s, e, s') && !ActsOn(e, id) && !e.WaitEv? && Unspent(s, id) && HoldsOwn(s, id)
    ensures Unspent(s', id)
  {
    WorkerKept(env, s, e, s', id);
    ObservedKept(env, s, e, s');
    if !e.Writes() {
      MemoryKept(env, s, e, s');
    }
  }

  lemma ObservedKept(env: Env, s: Sys, e: Event, s': Sys)
    requires Next(env, s, e, s') && !e.WaitEv?
    ensures s'.observed == s.observed
  {
  }

  lemma UnspentWrite(env: Env, s: Sys, e: Event, s': Sys, id: Digest)
    requires e.Writes() && WriteNext(env, s, e, s') && ActsOn(e, id) && Unspent(s, id) && HoldsOwn(s, id)
    ensures Unspent(s', id)
  {
  }

  lemma UnspentQueue(s: Sys, e: Event, s': Sys, id: Digest)
    requires e.Queues() && QueueNext(s, e, s') && ActsOn(e, id) && Unspent(s, id)
    ensures Unspent(s', id)
  {
  }

  lemma UnspentLook(env: Env, s: Sys, e: Event, s': Sys, id: Digest)
    requires e.Looks() && LookNext(env, s, e, s') && ActsOn(e, id) && Unspent(s, id)
    ensures Unspent(s', id)
  {
  }

  lemma UnspentCall(env: Env, s: Sys, e: Event, s': Sys, id: Digest)
    requires e.Calls() && CallNext(env, s, e, s') && ActsOn(e, id) && Unspent(s, id) && !e.WaitEv?
    requires forall t :: t in s.observed ==> t < |s.txs|
    ensures Unspent(s', id)
  {
  }

  lemma UnspentOwnWait(s: Sys, id: Digest, outcome: WaitOutcome, s': Sys)
    requires Wait(s, id, outcome, s') && Unspent(s, id) && HoldsOwn(s, id)
    ensures Unspent(s', id)
  {
  }

  lemma UnspentOwn(env: Env, s: Sys, e: Event, s': Sys, id: Digest)
    requires Next(env, s, e, s') && ActsOn(e, id) && Unspent(s, id) && HoldsOwn(s, id)
    requires forall t :: t in s.observed ==> t < |s.txs|
    ensures Unspent(s', id)
  {
    if e.Writes() {
      UnspentWrite(env, s, e, s', id);
    } else if e.Queues() {
      UnspentQueue(s, e, s', id);
    } else if e.Looks() {
      UnspentLook(env, s, e, s', id);
    } else if e.WaitEv? {
      UnspentOwnWait(s, id, e.waited, s');
    } else {
      UnspentCall(env, s, e, s', id);
    }
  }

  /** A wait of another workload's worker observes a transaction of that workload. */
  lemma UnspentWait(s: Sys, o: Digest, outcome: WaitOutcome, s': Sys, id: Digest)
    requires Wait(s, o, outcome, s') && o != id && Unspent(s, id) && HoldsOwn(s, id) && HoldsOwn(s, o)
    ensures Unspent(s', id)
  {
  }

  lemma UnspentStep(env: Env, s: Sys, e: Event, s': Sys, id: Digest)
    requires Inv(env, s) && Next(env, s, e, s') && Unspent(s, id)
    ensures Unspent(s', id)
  {
    InvHoldsOwn(env, s, id);
    if ActsOn(e, id) {
      assert forall t :: t in s.observed ==> ReceiptOk(s, t);
      UnspentOwn(env, s, e, s', id);
    } else if e.WaitEv? {
      InvHoldsOwn(env, s, e.id);
      UnspentWait(s, e.id, e.waited, s', id);
    } else {
      UnspentElsewhere(env, s, e, s', id);
    }
  }

  lemma {:induction false} UnspentAt(env: Env, states: seq<Sys>, events: seq<Event>, k: nat, id: Digest)
    requires Run(env, states, events) && k < |states|
    ensures Unspent(states[k], id)
  {
    if k != 0 {
      UnspentAt(env, states, events, k - 1, id);
      InvAt(env, states, events, k - 1);
      assert Next(env, states[k - 1], events[k - 1], states[k]);
      UnspentStep(env, states[k - 1], events[k - 1], states[k], id);
    }
  }

  /** No worker ever sends a transaction again once a revert of it was observed. */
  lemma SpentIsNeverResent(env: Env, states: seq<Sys>, events: seq<Event>, k: nat, id: Digest)
    requires Run(env, states, events) && k < |events| && events[k].SendEv? && events[k].id == id
    ensures id in states[k].workers && states[k].workers[id].Sending? && states[k].workers[id].tx !in states[k].observed
  {
    UnspentAt(env, states, events, k, id);
    assert Next(env, states[k], events[k], states[k + 1]);
  }

  // ---------- confirmation is sound ----------

  /** A key held as confirmed is in the log, signed by us over a revision that was asked for. */
  lemma ConfirmedIsLogged(env: Env, states: seq<Sys>, events: seq<Event>, k: nat, id: Digest) returns (p: nat, n: nat)
    requires Run(env, states, events) && k < |states|
    requires id in states[k].mem.state && states[k].mem.state[id].confirmed.Some?
    ensures p < |states[k].chain.log| && 1 <= n <= |states[k].revs|
    ensures
      var record, key := states[k].chain.log[p], states[k].mem.state[id].confirmed.value;
      var asked := states[k].revs[n - 1];
      && record.id == id && record.key == key
      && asked.id == id && env.idOf(asked.desired) == Some(id) && env.keyOf(asked.desired) == key
      && record.sig != [] && env.verify(env.digestOf(asked.desired), record.sig)
  {
    InvAt(env, states, events, k);
    RequestedAt(env, states, events, k);
    assert MemOk(env, states[k], id);
    p, n :| Vouches(env, states[k], id, states[k].mem.state[id].confirmed.value, p, n);
  }

  // ---------- no work is lost ----------

  /** The desired revision has not been seen on chain. */
  predicate Pending(s: Sys, id: Digest) {
    id in s.mem.state && s.mem.state[id].confirmed != Some(s.mem.state[id].key)
  }

  /** The queue will hand the id out again. */
  predicate Held(s: Sys, id: Digest) {
    id in s.dirty || id in s.backoff || id in s.adding
  }

  /** The worker will look at the workload, or will put it back. */
  predicate WillReturn(w: Worker) {
    !w.Ending? && w != Finishing(Finished)
  }

  /** The workload is not lost to the queue. */
  ghost predicate Kept(s: Sys, id: Digest) {
    Held(s, id) || (id in s.workers && WillReturn(s.workers[id]))
  }

  ghost predicate NoLoss(s: Sys, id: Digest) {
    Pending(s, id) ==> Kept(s, id)
  }

  /** What a confirming worker and memory agree on. */
  ghost predicate Agrees(s: Sys, id: Digest) {
    && (id in s.mem.state ==> s.mem.state[id].number != 0)
    && (id in s.workers && s.workers[id].Confirming? ==>
          && id in s.mem.state
          && (s.workers[id].rev.number == s.mem.state[id].number ==> s.workers[id].rev.key == s.mem.state[id].key))
  }

  lemma InvAgrees(env: Env, s: Sys, id: Digest)
    requires Inv(env, s)
    ensures Agrees(s, id)
  {
    if id in s.workers {
      assert WorkOk(env, s, id);
    }
    if id in s.mem.state {
      assert MemOk(env, s, id);
    }
  }

  lemma KeptByWrite(env: Env, s: Sys, e: Event, s': Sys, id: Digest)
    requires Agrees(s, id) && e.Writes() && WriteNext(env, s, e, s')
    requires Pending(s', id) && (Pending(s, id) ==> Kept(s, id))
    ensures Kept(s', id)
  {
  }

  lemma KeptByQueue(s: Sys, e: Event, s': Sys, id: Digest)
    requires e.Queues() && QueueNext(s, e, s') && Kept(s, id)
    ensures Kept(s', id)
  {
  }

  lemma KeptByChain(s: Sys, e: Event, s': Sys, id: Digest)
    requires e.OfChain() && ChainNext(s, e, s') && Kept(s, id)
    ensures Kept(s', id)
  {
  }

  lemma KeptByLook(env: Env, s: Sys, e: Event, s': Sys, id: Digest)
    requires Agrees(s, id) && e.Looks() && LookNext(env, s, e, s') && Pending(s, id) && Kept(s, id)
    ensures Kept(s', id)
  {
  }

  /** A worker that calls out comes back. */
  lemma CallReturns(env: Env, s: Sys, e: Event, s': Sys)
    requires e.Calls() && CallNext(env, s, e, s')
    ensures e.id in s'.workers && WillReturn(s'.workers[e.id])
    ensures s'.dirty == s.dirty && s'.backoff == s.backoff && s'.adding == s.adding
  {
  }

  lemma KeptByCall(env: Env, s: Sys, e: Event, s': Sys, id: Digest)
    requires e.Calls() && CallNext(env, s, e, s') && Kept(s, id)
    ensures Kept(s', id)
  {
    CallReturns(env, s, e, s');
    if e.id != id {
      WorkerKeptCall(env, s, e, s', id);
    }
  }

  lemma KeptByOthers(env: Env, s: Sys, e: Event, s': Sys, id: Digest)
    requires Agrees(s, id) && Next(env, s, e, s') && Pending(s, id) && Kept(s, id) && !e.Writes()
    ensures Kept(s', id)
  {
    if e.Queues() {
      KeptByQueue(s, e, s', id);
    } else if e.OfChain() {
      KeptByChain(s, e, s', id);
    } else if e.Looks() {
      KeptByLook(env, s, e, s', id);
    } else {
      KeptByCall(env, s, e, s', id);
    }
  }

  lemma NoLossStep(env: Env, s: Sys, e: Event, s': Sys, id: Digest)
    requires Inv(env, s) && NoLoss(s, id) && Next(env, s, e, s')
    ensures NoLoss(s', id)
  {
    if Pending(s', id) {
      InvAgrees(env, s, id);
      if e.Writes() {
        KeptByWrite(env, s, e, s', id);
      } else {
        MemoryKept(env, s, e, s');
        KeptByOthers(env, s, e, s', id);
      }
    }
  }

  lemma {:induction false} NoLossAt(env: Env, states: seq<Sys>, events: seq<Event>, k: nat, id: Digest)
    requires Run(env, states, events) && k < |states|
    ensures NoLoss(states[k], id)
  {
    if k != 0 {
      NoLossAt(env, states, events, k - 1, id);
      InvAt(env, states, events, k - 1);
      assert Next(env, states[k - 1], events[k - 1], states[k]);
      NoLossStep(env, states[k - 1], events[k - 1], states[k], id);
    }
  }

  /**
    A desired revision not yet confirmed is queued, in backoff, held by an `Enqueue`, or being worked; and a
    worker that will neither look at it again nor put it back is not enough: then the queue has it too.
   */
  lemma NoLostWork(env: Env, states: seq<Sys>, events: seq<Event>, k: nat, id: Digest)
    requires Run(env, states, events) && k < |states| && Pending(states[k], id)
    ensures states[k].Queued(id) || id in states[k].backoff || id in states[k].adding || id in states[k].workers
    ensures id in states[k].workers && !WillReturn(states[k].workers[id]) ==> Held(states[k], id)
  {
    NoLossAt(env, states, events, k, id);
  }

  /** When the publisher is idle, every desired revision is confirmed. */
  lemma IdleMeansConfirmed(env: Env, states: seq<Sys>, events: seq<Event>, k: nat, id: Digest)
    requires Run(env, states, events) && k < |states| && id in states[k].mem.state
    requires states[k].dirty == {} && states[k].backoff == {} && states[k].adding == multiset{} && states[k].workers == map[]
    ensures states[k].mem.state[id].confirmed == Some(states[k].mem.state[id].key)
    ensures Vouched(env, states[k], id, states[k].mem.state[id].key)
  {
    NoLossAt(env, states, events, k, id);
    InvAt(env, states, events, k);
    assert !Pending(states[k], id);
    assert MemOk(env, states[k], id);
  }

  // ---------- what a request and a pass come to ----------

  /**
    In every run, a request is followed by a `queue.Add` exactly when its key was not already seen on chain for
    its workload, so a workload in backoff is taken up at once; a request that does not validate changes nothing.
   */
  lemma RequestIsQueued(env: Env, states: seq<Sys>, events: seq<Event>, k: nat, d: Desired)
    requires Run(env, states, events) && k < |events| && events[k] == EnqueueEv(d)
    ensures
      var s, s' := states[k], states[k + 1];
      if env.idOf(d).None? then s' == s
      else
        var id := env.idOf(d).value;
        if id in s.mem.state && s.mem.state[id].confirmed == Some(env.keyOf(d)) then
          s' == s
        else
          && s'.adding == s.adding + multiset{id} && id in s'.mem.state && s'.mem.state[id].key == env.keyOf(d)
          && s'.dirty == s.dirty && s'.backoff == s.backoff && s'.workers == s.workers && s'.chain == s.chain
  {
    assert Next(env, states[k], events[k], states[k + 1]);
    InvAt(env, states, events, k);
    if env.idOf(d).Some? && env.idOf(d).value in states[k].mem.state {
      assert MemOk(env, states[k], env.idOf(d).value);
    }
  }

  /** Every call that fails, and every look at the registry that shows nothing, ends the pass with an error. */
  lemma FailuresEndThePass(env: Env, s: Sys, e: Event, s': Sys)
    requires Next(env, s, e, s')
    requires || (e.LatestEv? && !e.readable) || (e.RereadEv? && !e.readable) || e.DiscardEv?
             || (e.SignEv? && e.signature.None?) || (e.PrepareEv? && e.nonce.None?)
             || (e.SendEv? && e.sent == SendFault) || (e.WaitEv? && e.waited == WaitFault)
    ensures e.id in s'.workers && s'.workers[e.id] == Finishing(Failed) && s'.chain == s.chain && s'.txs == s.txs
  {
    if e.Calls() {
      CallOffChain(env, s, e, s');
    } else {
      OthersOffChain(env, s, e, s');
    }
  }

  /** A look at the registry confirms exactly a record with the revision's key whose signature verifies for it. */
  lemma LookDecides(env: Env, s: Sys, id: Digest, s': Sys)
    requires Next(env, s, LatestEv(id, true), s')
    ensures id in s.workers && s.workers[id].Reading? && id in s'.workers
    ensures
      var rev, latest, w := s.workers[id].rev, LatestOf(s.chain.log, id), s'.workers[id];
      if && latest.Some? && latest.value.key == rev.key && latest.value.sig != []
         && env.verify(env.digestOf(rev.desired), latest.value.sig)
      then w == Confirming(rev)
      else if rev.prepared.Some? then w == Sending(rev, rev.prepared.value)
      else if rev.signature.Some? then w == Preparing(rev, rev.signature.value)
      else w == Signing(rev)
  {
  }

  lemma RereadDecides(env: Env, s: Sys, id: Digest, s': Sys)
    requires Next(env, s, RereadEv(id, true), s')
    ensures id in s.workers && s.workers[id].Rereading? && id in s'.workers
    ensures
      var rev, latest := s.workers[id].rev, LatestOf(s.chain.log, id);
      s'.workers[id] ==
        if && latest.Some? && latest.value.key == rev.key && latest.value.sig != []
           && env.verify(env.digestOf(rev.desired), latest.value.sig)
        then Confirming(rev) else Finishing(Failed)
  {
  }

  /** A prepared transaction is installed if its revision is current, and sent in any case. */
  lemma PreparedIsSent(env: Env, s: Sys, id: Digest, s': Sys)
    requires Next(env, s, InstallEv(id), s')
    ensures id in s.workers && s.workers[id].Installing?
    ensures id in s'.workers && s'.workers[id] == Sending(s.workers[id].rev, s.workers[id].tx)
  {
  }

  /** Unless the call failed, the worker waits for the transaction; then success confirms and a revert discards. */
  lemma SentIsAwaited(env: Env, s: Sys, e: Event, s': Sys)
    requires Next(env, s, e, s') && (e.SendEv? || e.WaitEv?)
    ensures e.id in s.workers && e.id in s'.workers && (s.workers[e.id].Sending? || s.workers[e.id].Waiting?)
    ensures
      var rev, tx, w := s.workers[e.id].rev, s.workers[e.id].tx, s'.workers[e.id];
      && (e.SendEv? && e.sent != SendFault ==> w == Waiting(rev, tx) && tx in s'.chain.sent)
      && (e.WaitEv? && e.waited == WaitUnknown ==> w == Rereading(rev, tx))
      && (e.WaitEv? && e.waited == WaitMinedSuccess ==> w == Confirming(rev))
      && (e.WaitEv? && e.waited == WaitReverted ==> w == Discarding(rev, tx) && tx in s'.observed)
  {
  }

  /** A confirmation records the key as seen, even of a superseded revision, which is then taken up again. */
  lemma ConfirmationIsRecorded(env: Env, s: Sys, id: Digest, s': Sys)
    requires Next(env, s, ConfirmEv(id), s') && id in s.mem.state
    ensures id in s.workers && s.workers[id].Confirming? && id in s'.mem.state && id in s'.workers
    ensures s'.mem.state[id].confirmed == Some(s.workers[id].rev.key)
    ensures s'.workers[id] == Finishing(if s.mem.state[id].number == s.workers[id].rev.number then Finished else Again)
  {
  }

  /** After an error the id backs off; after a superseded confirmation it is queued at once; otherwise it is let go. */
  lemma PassIsRequeued(env: Env, s: Sys, id: Digest, s': Sys)
    requires Next(env, s, FinishEv(id), s')
    ensures id in s.workers && s.workers[id].Finishing?
    ensures s'.backoff == (if s.workers[id].outcome == Failed then s.backoff + {id} else s.backoff)
    ensures s'.dirty == (if s.workers[id].outcome == Again then s.dirty + {id} else s.dirty)
    ensures s'.mem == s.mem && s'.chain == s.chain && s'.adding == s.adding
  {
  }
}
