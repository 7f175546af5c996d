/**
  The slot holds what the publisher confirmed, on every run whose confirming reads happen while
  no superseded transaction of the workload can still be mined.
 */
module DeliverySlot {
  import opened Types
  import opened PublisherState
  import opened Delivery
  import opened DeliveryInvariants
  import opened DeliverySteps
  import opened DeliveryTheorems
  import opened DeliveryOrder

  /** Since the run began (when the log had `start` entries) only we have written the slot. */
  ghost predicate OnlyUs(s: Sys, id: Digest, start: nat) {
    && (forall p :: 0 <= p < |s.chain.log| && p < start ==> s.chain.log[p].source.None?)
    && (forall p :: start <= p < |s.chain.log| && s.chain.log[p].id == id ==> s.chain.log[p].source.Some?)
  }

  /** A read that confirms happens while no superseded transaction can still be mined. */
  ghost predicate SafeRead(s: Sys, e: Event, s': Sys, id: Digest) {
    (e.LatestEv? || e.RereadEv?) && e.id == id && id in s'.workers && s'.workers[id].Confirming? ==>
      NoneSuperseded(s, id, s'.workers[id].rev.key)
  }

  ghost predicate SlotOk(s: Sys, id: Digest) {
    && (id in s.mem.state && !Pending(s, id) ==> Steady(s, id, s.mem.state[id].key))
    && (id in s.workers && s.workers[id].Confirming? ==> Steady(s, id, s.workers[id].rev.key))
    && (id in s.workers && s.workers[id].HasRev() && !s.workers[id].Confirming? ==> Pending(s, id))
  }

  lemma LatestExists(log: seq<Entry>, id: Digest, p: nat)
    requires p < |log| && log[p].id == id
    ensures LatestOf(log, id).Some?
  {
    if p < |log| - 1 && log[|log| - 1].id != id {
      LatestExists(log[..|log| - 1], id, p);
    }
  }

  /** Nothing of the workload was prepared after a transaction of its newest revision that succeeded. */
  lemma NothingAfter(s: Sys, id: Digest, t: TxRef, n: nat)
    requires PrepareOrder(s) && ObservedOk(s) && NoneAfter(s, id, n)
    requires t < |s.txs| && s.txs[t].id == id && s.txs[t].number == n
    requires t in s.chain.receipts && s.chain.receipts[t]
    ensures forall u :: t < u < |s.txs| ==> s.txs[u].id != id
  {
    assert t !in s.observed;
  }

  lemma MinedNoneLive(s: Sys, id: Digest, t: TxRef, n: nat)
    requires PrepareOrder(s) && ChainOk(s) && NoncesOk(s) && NoneAfter(s, id, n)
    requires t < |s.txs| && s.txs[t].id == id && s.txs[t].number == n
    requires t in s.chain.receipts && s.chain.receipts[t]
    ensures forall i: nat :: Live(s, i) ==> s.txs[i].id != id
  {
    assert ReceiptOk(s, t);
    NothingAfter(s, id, t, n);
  }

  lemma MinedInSlot(s: Sys, id: Digest, t: TxRef, n: nat, start: nat)
    requires PrepareOrder(s) && ChainOk(s) && NoncesOk(s) && NoneAfter(s, id, n) && OnlyUs(s, id, start)
    requires t < |s.txs| && s.txs[t].id == id && s.txs[t].number == n
    requires t in s.chain.receipts && s.chain.receipts[t]
    ensures SlotHolds(s, id, s.txs[t].key)
  {
    assert ReceiptOk(s, t);
    var p :| Logged(s, t, p);
    LatestExists(s.chain.log, id, p);
    var q := LatestIsLogged(s.chain.log, id);
    assert p <= q && EntryOk(s, q);
    NothingAfter(s, id, t, n);
    if p < q {
      LaterRecord(s, p, q);
    }
  }

  lemma WaiterOwns(env: Env, s: Sys, id: Digest)
    requires Core(env, s) && id in s.workers && s.workers[id].Waiting?
    ensures
      var Waiting(rev, t) := s.workers[id];
      && NoneAfter(s, id, rev.number)
      && t < |s.txs| && s.txs[t].id == id && s.txs[t].number == rev.number && s.txs[t].key == rev.key
  {
    assert WorkOk(env, s, id);
    assert TxOk(env, s, s.txs[s.workers[id].tx]);
  }

  /** A worker whose transaction succeeded finds its key in the slot, for good. */
  lemma MinedIsSteady(env: Env, s: Sys, id: Digest, start: nat)
    requires Inv(env, s) && NoncesOk(s) && OnlyUs(s, id, start)
    requires id in s.workers && s.workers[id].Waiting?
    requires s.workers[id].tx in s.chain.receipts && s.chain.receipts[s.workers[id].tx]
    ensures Steady(s, id, s.workers[id].rev.key)
  {
    WaiterOwns(env, s, id);
    var Waiting(rev, t) := s.workers[id];
    MinedNoneLive(s, id, t, rev.number);
    MinedInSlot(s, id, t, rev.number, start);
  }

  lemma OnlyUsMine(s: Sys, success: bool, s': Sys, id: Digest, start: nat)
    requires Mine(s, success, s') && OnlyUs(s, id, start) && start <= |s.chain.log| && Undisturbed(s, MineEv(success), id)
    ensures OnlyUs(s', id, start) && start <= |s'.chain.log|
  {
  }

  lemma OnlyUsStep(env: Env, s: Sys, e: Event, s': Sys, id: Digest, start: nat)
    requires Next(env, s, e, s') && OnlyUs(s, id, start) && start <= |s.chain.log| && Undisturbed(s, e, id)
    ensures OnlyUs(s', id, start) && start <= |s'.chain.log|
  {
    if e.MineEv? {
      OnlyUsMine(s, e.success, s', id, start);
    } else {
      UnminedStep(env, s, e, s');
    }
  }

  lemma SteadyStep(env: Env, s: Sys, e: Event, s': Sys, id: Digest, k: RevisionKey)
    requires Inv(env, s) && Next(env, s, e, s') && Undisturbed(s, e, id) && Steady(s, id, k)
    requires !(e.SendEv? && e.id == id)
    ensures Steady(s', id, k)
  {
    if e.MineEv? {
      SteadyMine(s, e.success, s', id, k);
    } else {
      SteadyElse(env, s, e, s', id, k);
    }
  }

  /** How a workload becomes confirmed: it was, and nothing newer was asked, or its worker confirmed it. */
  lemma ConfirmedStep(env: Env, s: Sys, e: Event, s': Sys, id: Digest)
    requires Next(env, s, e, s') && id in s'.mem.state && !Pending(s', id)
    ensures || (e == ConfirmEv(id) && id in s.workers && s.workers[id].Confirming?
                && s'.mem.state[id].key == s.workers[id].rev.key)
            || (id in s.mem.state && !Pending(s, id) && s'.mem.state[id].key == s.mem.state[id].key)
  {
    if !e.Writes() {
      MemoryKept(env, s, e, s');
    }
  }

  /** A workload stays unconfirmed until its worker confirms something. */
  lemma PendingStep(env: Env, s: Sys, e: Event, s': Sys, id: Digest)
    requires Next(env, s, e, s') && Pending(s, id) && e != ConfirmEv(id)
    ensures Pending(s', id)
  {
    if !e.Writes() {
      MemoryKept(env, s, e, s');
    }
  }

  /** The read showed this very revision, under our signature. */
  predicate ReadMatched(env: Env, s: Sys, e: Event, id: Digest) {
    && (e.LatestEv? || e.RereadEv?) && e.id == id
    && id in s.workers && s.workers[id].HasRev() && Matches(env, s.workers[id].rev, LatestOf(s.chain.log, id))
  }

  /** The wait showed a receipt with success. */
  predicate WaitSucceeded(s: Sys, e: Event, id: Digest) {
    && e == WaitEv(id, WaitMinedSuccess) && id in s.workers && s.workers[id].Waiting?
    && s.workers[id].tx in s.chain.receipts && s.chain.receipts[s.workers[id].tx]
  }

  /** How a worker comes to hold a snapshot, and to confirm. */
  lemma WorkerOrigin(env: Env, s: Sys, e: Event, s': Sys, id: Digest)
    requires Next(env, s, e, s') && ActsOn(e, id) && id in s'.workers && s'.workers[id].HasRev()
    ensures e == SnapshotEv(id) ==> Pending(s', id) && !s'.workers[id].Confirming?
    ensures e != SnapshotEv(id) ==>
      && id in s.workers && s.workers[id].HasRev() && s.workers[id].rev == s'.workers[id].rev
      && e != ConfirmEv(id) && !s.workers[id].Confirming?
      && (s'.workers[id].Confirming? ==> WaitSucceeded(s, e, id) || ReadMatched(env, s, e, id))
  {
  }

  lemma SlotMem(env: Env, s: Sys, e: Event, s': Sys, id: Digest)
    requires Inv(env, s) && Next(env, s, e, s') && Undisturbed(s, e, id) && SlotOk(s, id)
    requires id in s'.mem.state && !Pending(s', id)
    ensures Steady(s', id, s'.mem.state[id].key)
  {
    ConfirmedStep(env, s, e, s', id);
    SteadyStep(env, s, e, s', id, s'.mem.state[id].key);
  }

  lemma SlotWorker(env: Env, s: Sys, e: Event, s': Sys, id: Digest, start: nat)
    requires Inv(env, s) && NoncesOk(s) && OnlyUs(s, id, start) && Next(env, s, e, s')
    requires Undisturbed(s, e, id) && SafeRead(s, e, s', id) && SlotOk(s, id)
    requires id in s'.workers && s'.workers[id].HasRev()
    ensures s'.workers[id].Confirming? ==> Steady(s', id, s'.workers[id].rev.key)
    ensures !s'.workers[id].Confirming? ==> Pending(s', id)
  {
    if ActsOn(e, id) {
      WorkerOrigin(env, s, e, s', id);
      if s'.workers[id].Confirming? {
        if WaitSucceeded(s, e, id) {
          MinedIsSteady(env, s, id, start);
        }
        SteadyStep(env, s, e, s', id, s'.workers[id].rev.key);
      } else if e != SnapshotEv(id) {
        PendingStep(env, s, e, s', id);
      }
    } else {
      WorkerKept(env, s, e, s', id);
      if s'.workers[id].Confirming? {
        SteadyStep(env, s, e, s', id, s'.workers[id].rev.key);
      } else {
        PendingStep(env, s, e, s', id);
      }
    }
  }

  /** Every step of the run respects the slot: see `SlotHoldsConfirmed`. */
  ghost predicate Respected(states: seq<Sys>, events: seq<Event>, id: Digest)
    requires |states| == |events| + 1
  {
    forall k {:trigger events[k]} :: 0 <= k < |events| ==>
      && !events[k].ForgetEv?
      && Undisturbed(states[k], events[k], id)
      && SafeRead(states[k], events[k], states[k + 1], id)
  }

  ghost predicate SlotInv(s: Sys, id: Digest, start: nat) {
    SlotOk(s, id) && OnlyUs(s, id, start) && start <= |s.chain.log|
  }

  lemma SlotFresh(s: Sys, id: Digest)
    requires Fresh(s)
    ensures SlotInv(s, id, |s.chain.log|)
  {
  }

  lemma {:induction false} SlotAt(env: Env, states: seq<Sys>, events: seq<Event>, id: Digest, k: nat)
    requires Run(env, states, events) && Respected(states, events, id) && k < |states|
    ensures SlotInv(states[k], id, |states[0].chain.log|)
  {
    if k == 0 {
      SlotFresh(states[0], id);
    } else {
      SlotAt(env, states, events, id, k - 1);
      SlotNext(env, states, events, id, k - 1);
    }
  }

  lemma SlotNext(env: Env, states: seq<Sys>, events: seq<Event>, id: Digest, k: nat)
    requires Run(env, states, events) && Respected(states, events, id) && k < |events|
    requires SlotInv(states[k], id, |states[0].chain.log|)
    ensures SlotInv(states[k + 1], id, |states[0].chain.log|)
  {
    InvAt(env, states, events, k);
    NoncesAt(env, states, events, k);
    var e := events[k];
    SlotOkStep(env, states[k], e, states[k + 1], id, |states[0].chain.log|);
  }

  lemma SlotOkStep(env: Env, s: Sys, e: Event, s': Sys, id: Digest, start: nat)
    requires Inv(env, s) && NoncesOk(s) && SlotInv(s, id, start) && Next(env, s, e, s')
    requires Undisturbed(s, e, id) && SafeRead(s, e, s', id)
    ensures SlotInv(s', id, start)
  {
    OnlyUsStep(env, s, e, s', id, start);
    if id in s'.mem.state && !Pending(s', id) {
      SlotMem(env, s, e, s', id);
    }
    if id in s'.workers && s'.workers[id].HasRev() {
      SlotWorker(env, s, e, s', id, start);
    }
  }

  /**
    If no transaction is dropped, nobody else writes the slot, and reads that confirm happen while no
    superseded transaction of the workload can still be mined, then the slot holds the desired
    revision's key from the moment it is confirmed until another is asked for.
   */
  lemma SlotHoldsConfirmed(env: Env, states: seq<Sys>, events: seq<Event>, id: Digest, k: nat)
    requires Run(env, states, events) && Respected(states, events, id) && k < |states|
    requires id in states[k].mem.state && states[k].mem.state[id].confirmed == Some(states[k].mem.state[id].key)
    ensures SlotHolds(states[k], id, states[k].mem.state[id].key)
  {
    SlotAt(env, states, events, id, k);
  }
}
