/** A stuck workload stays stuck, so `Stuck` is exactly when the desired revision can no longer be confirmed. */
module DeliveryStuck {
  import opened Types
  import opened PublisherState
  import opened Delivery
  import opened DeliveryInvariants
  import opened DeliverySteps
  import opened DeliveryTheorems
  import opened DeliveryOrder
  import opened DeliveryProgress

  /** The worker, if any, is about the current revision and holds only what memory keeps for it. */
  ghost predicate StuckWork(s: Sys, id: Digest, st: WorkloadState) {
    id in s.workers && s.workers[id].HasRev() ==>
      var w := s.workers[id];
      && w.rev.key == st.key && w.rev.desired == st.desired
      && !w.Confirming? && !w.Installing? && !w.Discarding?
      && (w.Reading? ==> w.rev.prepared == st.prepared)
      && (w.Sending? || w.Waiting? || w.Rereading? ==> st.prepared == Some(w.tx))
      && (w.Signing? || w.Preparing? ==> st.prepared.None?)
  }

  ghost predicate StillStuck(env: Env, s: Sys, id: Digest, st: WorkloadState) {
    && id in s.mem.state && s.mem.state[id] == st && Pending(s, id)
    && Hopeless(s, id) && !MayShow(env, s, id, st) && NoForeignWrite(s, id) && StuckWork(s, id, st)
  }

  // ---------- memory ----------

  lemma StuckWrite(env: Env, s: Sys, e: Event, s': Sys, id: Digest, st: WorkloadState)
    requires e.Writes() && !e.EnqueueEv? && WriteNext(env, s, e, s')
    requires id in s.mem.state && s.mem.state[id] == st && StuckWork(s, id, st)
    ensures id in s'.mem.state && s'.mem.state[id] == st && e.id != id
  {
  }

  lemma StuckMem(env: Env, s: Sys, e: Event, s': Sys, id: Digest, st: WorkloadState)
    requires Next(env, s, e, s') && OnItsOwn(e)
    requires id in s.mem.state && s.mem.state[id] == st && StuckWork(s, id, st)
    ensures id in s'.mem.state && s'.mem.state[id] == st && (e.Writes() ==> e.id != id)
  {
    if e.Writes() {
      StuckWrite(env, s, e, s', id, st);
    } else {
      MemoryKept(env, s, e, s');
    }
  }

  // ---------- the worker ----------

  lemma StuckLook(env: Env, s: Sys, e: Event, s': Sys, id: Digest, st: WorkloadState)
    requires e.Looks() && LookNext(env, s, e, s') && e.id == id
    requires id in s.mem.state && s.mem.state[id] == st && StuckWork(s, id, st)
    requires !Matches(env, st, LatestOf(s.chain.log, id))
    ensures StuckWork(s', id, st)
  {
  }

  lemma StuckQueue(s: Sys, e: Event, s': Sys, id: Digest, st: WorkloadState)
    requires e.Queues() && QueueNext(s, e, s') && StuckWork(s, id, st)
    ensures StuckWork(s', id, st)
  {
  }

  lemma StuckCall(env: Env, s: Sys, e: Event, s': Sys, id: Digest, st: WorkloadState)
    requires e.Calls() && CallNext(env, s, e, s') && e.id == id
    requires id in s.mem.state && s.mem.state[id] == st && Hopeless(s, id) && StuckWork(s, id, st)
    ensures StuckWork(s', id, st)
  {
  }

  lemma StuckWorkStep(env: Env, s: Sys, e: Event, s': Sys, id: Digest, st: WorkloadState)
    requires Next(env, s, e, s') && OnItsOwn(e) && StillStuck(env, s, id, st)
    ensures StuckWork(s', id, st)
  {
    StuckMem(env, s, e, s', id, st);
    if !ActsOn(e, id) {
      WorkerKept(env, s, e, s', id);
    } else if e.Looks() {
      StuckLook(env, s, e, s', id, st);
    } else if e.Queues() {
      StuckQueue(s, e, s', id, st);
    } else {
      StuckCall(env, s, e, s', id, st);
    }
  }

  // ---------- the chain ----------

  lemma DeadMine(s: Sys, success: bool, s': Sys, t: TxRef)
    requires PoolsOk(s) && Mine(s, success, s') && Dead(s, t)
    ensures Dead(s', t)
  {
    assert PoolOk(s, s.chain.next);
  }

  lemma DeadStep(env: Env, s: Sys, e: Event, s': Sys, t: TxRef)
    requires PoolsOk(s) && Next(env, s, e, s') && Dead(s, t)
    ensures Dead(s', t)
  {
    if e.MineEv? {
      DeadMine(s, e.success, s', t);
    } else {
      UnminedStep(env, s, e, s');
    }
  }

  /** The transaction a worker of the workload would hand over is dead. */
  ghost predicate SendsDead(s: Sys, id: Digest) {
    id in s.workers && s.workers[id].Sending? ==> Dead(s, s.workers[id].tx)
  }

  lemma NewlyLive(env: Env, s: Sys, e: Event, s': Sys, id: Digest, i: TxRef)
    requires Inv(env, s) && Next(env, s, e, s') && !e.MineEv? && SendsDead(s, id)
    requires Live(s', i) && s'.txs[i].id == id
    ensures Live(s, i) && s.txs[i] == s'.txs[i]
  {
    UnminedStep(env, s, e, s');
    if e.SendEv? {
      SendsOwn(env, s, e.id);
    }
  }

  lemma ShowUnmined(env: Env, s: Sys, e: Event, s': Sys, id: Digest, st: WorkloadState)
    requires Inv(env, s) && Next(env, s, e, s') && !e.MineEv? && SendsDead(s, id) && !MayShow(env, s, id, st)
    ensures !MayShow(env, s', id, st)
  {
    UnminedStep(env, s, e, s');
    forall i | LiveMatch(env, s', id, st, i)
      ensures LiveMatch(env, s, id, st, i)
    {
      NewlyLive(env, s, e, s', id, i);
    }
  }

  /** What is mined next for the workload is one of its live transactions. */
  lemma MinedWasLive(s: Sys)
    requires ChainOk(s) && s.chain.next in s.chain.pool && s.chain.pool[s.chain.next].Ours?
    ensures Live(s, s.chain.pool[s.chain.next].tx)
  {
    assert PoolOk(s, s.chain.next);
    var t := s.chain.pool[s.chain.next].tx;
    assert t in s.chain.receipts ==> ReceiptOk(s, t);
  }

  lemma ShowMineLatest(env: Env, s: Sys, success: bool, s': Sys, id: Digest, st: WorkloadState)
    requires ChainOk(s) && Mine(s, success, s') && NoForeignWrite(s, id) && !MayShow(env, s, id, st)
    ensures !Matches(env, st, LatestOf(s'.chain.log, id))
  {
    if |s'.chain.log| > |s.chain.log| {
      LatestAfter(s.chain.log, s'.chain.log[|s.chain.log|], id);
      if s.chain.pool[s.chain.next].Ours? {
        MinedWasLive(s);
        assert !LiveMatch(env, s, id, st, s.chain.pool[s.chain.next].tx);
      }
    }
  }

  lemma ShowMine(env: Env, s: Sys, success: bool, s': Sys, id: Digest, st: WorkloadState)
    requires ChainOk(s) && Mine(s, success, s') && NoForeignWrite(s, id) && !MayShow(env, s, id, st)
    ensures !MayShow(env, s', id, st)
  {
    ShowMineLatest(env, s, success, s', id, st);
    forall i | LiveMatch(env, s', id, st, i)
      ensures LiveMatch(env, s, id, st, i)
    {
    }
  }

  lemma NoForeignCall(env: Env, s: Sys, e: Event, s': Sys, id: Digest)
    requires e.Calls() && CallNext(env, s, e, s') && NoForeignWrite(s, id)
    ensures NoForeignWrite(s', id)
  {
  }

  lemma NoForeignStep(env: Env, s: Sys, e: Event, s': Sys, id: Digest)
    requires Next(env, s, e, s') && OnItsOwn(e) && NoForeignWrite(s, id)
    ensures NoForeignWrite(s', id)
  {
    if e.Calls() {
      NoForeignCall(env, s, e, s', id);
    } else if !e.OfChain() {
      OthersOffChain(env, s, e, s');
    }
  }

  // ---------- together ----------

  lemma StuckShow(env: Env, s: Sys, e: Event, s': Sys, id: Digest, st: WorkloadState)
    requires Inv(env, s) && Next(env, s, e, s') && StillStuck(env, s, id, st)
    ensures !MayShow(env, s', id, st)
  {
    if e.MineEv? {
      ShowMine(env, s, e.success, s', id, st);
    } else {
      assert SendsDead(s, id);
      ShowUnmined(env, s, e, s', id, st);
    }
  }

  lemma StuckHopeless(env: Env, s: Sys, e: Event, s': Sys, id: Digest, st: WorkloadState)
    requires PoolsOk(s) && Next(env, s, e, s') && id in s.mem.state && s.mem.state[id] == st && Hopeless(s, id)
    requires id in s'.mem.state && s'.mem.state[id] == st
    ensures Hopeless(s', id)
  {
    if st.prepared.Some? {
      DeadStep(env, s, e, s', st.prepared.value);
    }
  }

  lemma StuckStep(env: Env, s: Sys, e: Event, s': Sys, id: Digest, st: WorkloadState)
    requires Inv(env, s) && Next(env, s, e, s') && OnItsOwn(e) && StillStuck(env, s, id, st)
    ensures StillStuck(env, s', id, st)
  {
    StuckMem(env, s, e, s', id, st);
    StuckWorkStep(env, s, e, s', id, st);
    StuckHopeless(env, s, e, s', id, st);
    StuckShow(env, s, e, s', id, st);
    NoForeignStep(env, s, e, s', id);
  }

  ghost predicate StuckIn(env: Env, s: Sys, id: Digest, st: WorkloadState) {
    Inv(env, s) && StillStuck(env, s, id, st)
  }

  lemma StuckInStep(env: Env, s: Sys, e: Event, s': Sys, id: Digest, st: WorkloadState)
    requires StuckIn(env, s, id, st) && Next(env, s, e, s') && OnItsOwn(e)
    ensures StuckIn(env, s', id, st)
  {
    InvStep(env, s, e, s');
    StuckStep(env, s, e, s', id, st);
  }

  lemma {:induction false} StuckAlong(env: Env, states: seq<Sys>, events: seq<Event>, k: nat, id: Digest, st: WorkloadState)
    requires Steps(env, states, events) && k < |states|
    requires forall j :: 0 <= j < |events| ==> OnItsOwn(events[j])
    requires StuckIn(env, states[0], id, st)
    ensures StuckIn(env, states[k], id, st)
  {
    if k != 0 {
      StuckAlong(env, states, events, k - 1, id, st);
      assert Next(env, states[k - 1], events[k - 1], states[k]);
      StuckInStep(env, states[k - 1], events[k - 1], states[k], id, st);
    }
  }

  lemma StuckForGood(env: Env, s: Sys, id: Digest)
    requires Inv(env, s) && id in s.mem.state && Pending(s, id) && id !in s.workers && NoForeignWrite(s, id)
    requires Stuck(env, s, id)
    ensures !CanConfirm(env, s, id)
  {
    forall s' | Leads(env, s, s') && id in s'.mem.state
      ensures s'.mem.state[id].confirmed != Some(s.mem.state[id].key)
    {
      var states, events :| Connects(env, s, s', states, events);
      StuckAlong(env, states, events, |events|, id, s.mem.state[id]);
    }
  }

  lemma NotStuckConfirms(env: Env, s: Sys, id: Digest, sig: Bytes)
    requires Inv(env, s) && NoncesOk(s) && NoLoss(s, id) && Pending(s, id) && id !in s.workers
    requires env.Authentic(s.mem.state[id].desired, sig) && !Stuck(env, s, id)
    ensures CanConfirm(env, s, id)
  {
    LeadsSelf(env, s);
    NotStuckArrives(Path(env, s, id), s, sig);
    ArrivedConfirms(Path(env, s, id));
  }

  /**
    Between two passes of its worker, with no transaction dropped so far, no record of another user pending for
    the slot and a signature to be had, the desired revision can still be confirmed without a new request exactly
    when it is not stuck: when the transaction kept for it is not dead (or, with none kept, the contract takes its
    version), or the slot shows it or a transaction already handed over may still put it there.
   */
  lemma CanConfirmIff(env: Env, states: seq<Sys>, events: seq<Event>, k: nat, id: Digest, sig: Bytes)
    requires Run(env, states, events) && NeverForgets(events) && k < |states|
    requires Pending(states[k], id) && id !in states[k].workers && NoForeignWrite(states[k], id)
    requires env.Authentic(states[k].mem.state[id].desired, sig)
    ensures CanConfirm(env, states[k], id) <==> !Stuck(env, states[k], id)
  {
    InvAt(env, states, events, k);
    NoncesAt(env, states, events, k);
    NoLossAt(env, states, events, k, id);
    if Stuck(env, states[k], id) {
      StuckForGood(env, states[k], id);
    } else {
      NotStuckConfirms(env, states[k], id, sig);
    }
  }
}
