/**
  In what order a workload's records reach its slot, and when the slot ends up holding the
  revision the publisher believes is there.
 */
module DeliveryOrder {
  import opened Types
  import opened PublisherState
  import opened Delivery
  import opened DeliveryInvariants
  import opened DeliverySteps
  import opened DeliveryTheorems

  /** Every nonce below one that was handed out is mined or pooled, and nonces are handed out in order. */
  ghost predicate NoncesOk(s: Sys) {
    && (forall i, m: nat {:trigger s.txs[i], m in s.chain.pool} :: 0 <= i < |s.txs| && m < s.txs[i].nonce ==>
          m < s.chain.next || m in s.chain.pool)
    && (forall i, j :: 0 <= i < j < |s.txs| ==> s.txs[i].nonce <= s.txs[j].nonce)
  }

  /** The nonces spoken for, mined or pooled, only grow. */
  lemma OccupiedGrows(env: Env, s: Sys, e: Event, s': Sys)
    requires Next(env, s, e, s') && !e.ForgetEv?
    ensures s.chain.next <= s'.chain.next
    ensures forall m: nat :: m < s.chain.next || m in s.chain.pool ==> m < s'.chain.next || m in s'.chain.pool
    ensures !e.PrepareEv? ==> s'.txs == s.txs
  {
    if e.Calls() {
      CallOffChain(env, s, e, s');
    } else if !e.OfChain() {
      OthersOffChain(env, s, e, s');
    }
  }

  lemma NoncesStep(env: Env, s: Sys, e: Event, s': Sys)
    requires NoncesOk(s) && Next(env, s, e, s') && !e.ForgetEv?
    ensures NoncesOk(s')
  {
    OccupiedGrows(env, s, e, s');
    if e.PrepareEv? && e.nonce.Some? {
      var n := e.nonce.value;
      assert n !in s.chain.pool;
      assert forall i :: 0 <= i < |s.txs| ==> s.txs[i].nonce <= n;
    }
  }

  /** The node never drops a pooled transaction in this run (it may replace one under the same nonce). */
  ghost predicate NeverForgets(events: seq<Event>) {
    forall k :: 0 <= k < |events| ==> !events[k].ForgetEv?
  }

  lemma {:induction false} NoncesAt(env: Env, states: seq<Sys>, events: seq<Event>, k: nat)
    requires Run(env, states, events) && NeverForgets(events) && k < |states|
    ensures NoncesOk(states[k])
  {
    if k != 0 {
      NoncesAt(env, states, events, k - 1);
      assert Next(env, states[k - 1], events[k - 1], states[k]);
      NoncesStep(env, states[k - 1], events[k - 1], states[k]);
    }
  }

  /** Our later record has the later transaction. */
  lemma LaterRecord(s: Sys, p: nat, q: nat)
    requires ChainOk(s) && NoncesOk(s) && p < q && OursAt(s, p) && OursAt(s, q)
    ensures s.chain.log[p].source.value < s.chain.log[q].source.value
  {
    assert EntryOk(s, p) && EntryOk(s, q);
  }

  /**
    If pooled transactions are never dropped, a workload's records are mined in strictly increasing
    revision order, so a late superseded transaction never lands on top of a newer revision's.
   */
  lemma RecordsInOrder(env: Env, states: seq<Sys>, events: seq<Event>, k: nat, p: nat, q: nat)
    requires Run(env, states, events) && NeverForgets(events) && k < |states|
    requires p < q && OursAt(states[k], p) && OursAt(states[k], q)
    requires states[k].chain.log[p].id == states[k].chain.log[q].id
    ensures NumberAt(states[k], p) < NumberAt(states[k], q)
  {
    var s := states[k];
    InvAt(env, states, events, k);
    NoncesAt(env, states, events, k);
    LaterRecord(s, p, q);
    OnceInState(s, p, q);
    assert EntryOk(s, p) && EntryOk(s, q);
  }

  /**
    Without that assumption, exactly what the order of a workload's records depends on: the later record is of
    the newer revision if and only if it is of the later `Prepare`, and it always has the greater nonce.
   */
  lemma RecordsInOrderIff(env: Env, states: seq<Sys>, events: seq<Event>, k: nat, p: nat, q: nat)
    requires Run(env, states, events) && k < |states|
    requires p < q && OursAt(states[k], p) && OursAt(states[k], q)
    requires states[k].chain.log[p].id == states[k].chain.log[q].id
    ensures
      var s := states[k];
      var t, u := s.chain.log[p].source.value, s.chain.log[q].source.value;
      (NumberAt(s, p) < NumberAt(s, q) <==> t < u) && t != u && s.txs[t].nonce < s.txs[u].nonce
  {
    InvAt(env, states, events, k);
    OnceInState(states[k], p, q);
    OrderInState(states[k], p, q);
  }

  lemma OrderInState(s: Sys, p: nat, q: nat)
    requires ChainOk(s) && PrepareOrder(s) && p < q && OursAt(s, p) && OursAt(s, q)
    requires s.chain.log[p].id == s.chain.log[q].id && NumberAt(s, p) != NumberAt(s, q)
    ensures
      var t, u := s.chain.log[p].source.value, s.chain.log[q].source.value;
      (NumberAt(s, p) < NumberAt(s, q) <==> t < u) && t != u && s.txs[t].nonce < s.txs[u].nonce
  {
    assert EntryOk(s, p) && EntryOk(s, q);
  }

  // ---------- does the slot hold what the publisher confirmed? ----------

  /** A transaction that was handed to a node and can still be mined. */
  ghost predicate Live(s: Sys, i: TxRef) {
    i < |s.txs| && i in s.chain.sent && i !in s.chain.receipts && s.chain.next <= s.txs[i].nonce
  }

  /** No transaction that can still be mined would put another key in the slot. */
  ghost predicate NoneSuperseded(s: Sys, id: Digest, k: RevisionKey) {
    forall i: nat :: Live(s, i) && s.txs[i].id == id ==> s.txs[i].key == k
  }

  predicate SlotHolds(s: Sys, id: Digest, k: RevisionKey) {
    LatestOf(s.chain.log, id).Some? && LatestOf(s.chain.log, id).value.key == k
  }

  ghost predicate Steady(s: Sys, id: Digest, k: RevisionKey) {
    SlotHolds(s, id, k) && NoneSuperseded(s, id, k)
  }

  lemma LatestAfter(log: seq<Entry>, e: Entry, id: Digest)
    ensures LatestOf(log + [e], id) == if e.id == id then Some(e) else LatestOf(log, id)
  {
    assert (log + [e])[..|log|] == log;
  }

  /** The transaction about to be mined does not write a foreign record into the slot. */
  ghost predicate Undisturbed(s: Sys, e: Event, id: Digest) {
    e.MineEv? && e.success && s.chain.next in s.chain.pool && s.chain.pool[s.chain.next].Theirs?
      && s.chain.pool[s.chain.next].write.Some? ==>
      s.chain.pool[s.chain.next].write.value.id != id
  }

  lemma SteadyMine(s: Sys, success: bool, s': Sys, id: Digest, k: RevisionKey)
    requires ChainOk(s) && Mine(s, success, s') && Undisturbed(s, MineEv(success), id)
    requires Steady(s, id, k)
    ensures Steady(s', id, k)
  {
    if |s'.chain.log| > |s.chain.log| {
      LatestAfter(s.chain.log, s'.chain.log[|s.chain.log|], id);
    }
  }

  /** Apart from mining, a step leaves log, receipts and account nonce; only `Send` hands a transaction over. */
  lemma UnminedStep(env: Env, s: Sys, e: Event, s': Sys)
    requires Next(env, s, e, s') && !e.MineEv?
    ensures s'.chain.log == s.chain.log && s'.chain.receipts == s.chain.receipts && s'.chain.next == s.chain.next
    ensures s.txs <= s'.txs
    ensures !e.SendEv? ==> s'.chain.sent == s.chain.sent
    ensures e.SendEv? ==> e.id in s.workers && s.workers[e.id].Sending?
                          && s'.chain.sent <= s.chain.sent + {s.workers[e.id].tx}
  {
    if e.Calls() {
      CallOffChain(env, s, e, s');
    } else if !e.OfChain() {
      OthersOffChain(env, s, e, s');
    }
  }

  lemma SteadyKept(s: Sys, s': Sys, id: Digest, k: RevisionKey, handed: set<TxRef>)
    requires SentOk(s) && Steady(s, id, k)
    requires s'.chain.log == s.chain.log && s'.chain.receipts == s.chain.receipts && s'.chain.next == s.chain.next
    requires s.txs <= s'.txs && s'.chain.sent <= s.chain.sent + handed
    requires forall t :: t in handed ==> t < |s.txs| && s.txs[t].id != id
    ensures Steady(s', id, k)
  {
  }

  lemma SendsOwn(env: Env, s: Sys, id: Digest)
    requires Core(env, s) && id in s.workers && s.workers[id].Sending?
    ensures s.workers[id].tx < |s.txs| && s.txs[s.workers[id].tx].id == id
  {
  }

  lemma SteadyElse(env: Env, s: Sys, e: Event, s': Sys, id: Digest, k: RevisionKey)
    requires Inv(env, s) && Next(env, s, e, s') && !e.MineEv? && !(e.SendEv? && e.id == id) && Steady(s, id, k)
    ensures Steady(s', id, k)
  {
    UnminedStep(env, s, e, s');
    if e.SendEv? {
      SendsOwn(env, s, e.id);
      SteadyKept(s, s', id, k, {s.workers[e.id].tx});
    } else {
      SteadyKept(s, s', id, k, {});
    }
  }

  // ---------- a confirmation that the chain can still undo, and one it cannot ----------

  /** The chain alone moves on: nodes take transactions they were handed, and blocks are mined. */
  ghost predicate ChainOnly(events: seq<Event>) {
    forall k :: 0 <= k < |events| ==> events[k].DeliverEv? || events[k].MineEv?
  }

  /** No other user of the account has a record for the slot in the pool. */
  ghost predicate NoForeignWrite(s: Sys, id: Digest) {
    forall n :: n in s.chain.pool && s.chain.pool[n].Theirs? && s.chain.pool[n].write.Some? ==>
      s.chain.pool[n].write.value.id != id
  }

  ghost predicate AlwaysHolds(env: Env, s: Sys, id: Digest, k: RevisionKey) {
    forall states, events ::
      Steps(env, states, events) && states[0] == s && ChainOnly(events) ==> SlotHolds(states[|events|], id, k)
  }

  lemma SteadyOnChain(env: Env, s: Sys, e: Event, s': Sys, id: Digest, k: RevisionKey)
    requires Next(env, s, e, s') && (e.DeliverEv? || e.MineEv?)
    requires Inv(env, s) && NoForeignWrite(s, id) && Steady(s, id, k)
    ensures Inv(env, s') && NoForeignWrite(s', id) && Steady(s', id, k)
  {
    InvStep(env, s, e, s');
    if e.MineEv? {
      SteadyMine(s, e.success, s', id, k);
    } else {
      SteadyElse(env, s, e, s', id, k);
    }
  }

  lemma {:induction false} SteadyContinues(env: Env, states: seq<Sys>, events: seq<Event>, id: Digest, k: RevisionKey, n: nat)
    requires Steps(env, states, events) && ChainOnly(events) && n < |states|
    requires Inv(env, states[0]) && NoForeignWrite(states[0], id) && Steady(states[0], id, k)
    ensures Inv(env, states[n]) && NoForeignWrite(states[n], id) && Steady(states[n], id, k)
  {
    if n != 0 {
      SteadyContinues(env, states, events, id, k, n - 1);
      assert Next(env, states[n - 1], events[n - 1], states[n]);
      SteadyOnChain(env, states[n - 1], events[n - 1], states[n], id, k);
    }
  }

  lemma MineNow(env: Env, s: Sys, i: TxRef) returns (states: seq<Sys>, events: seq<Event>)
    requires Live(s, i) && s.txs[i].nonce == s.chain.next && Publishable(s.txs[i].key, s.txs[i].sig)
    ensures Steps(env, states, events) && states[0] == s && ChainOnly(events)
    ensures SlotHolds(states[|events|], s.txs[i].id, s.txs[i].key)
  {
    var t := s.txs[i];
    var s1 := s.(chain := s.chain.(pool := s.chain.pool[t.nonce := Ours(i)]));
    var c := s1.chain.(next := s1.chain.next + 1, pool := s1.chain.pool - {s1.chain.next});
    var e := Entry(t.id, t.key, t.sig, Some(i));
    var s2 := s1.(chain := c.(receipts := c.receipts[i := true], log := c.log + [e]));
    LatestAfter(s.chain.log, e, t.id);
    states, events := [s, s1, s2], [DeliverEv(i), MineEv(true)];
    assert Next(env, s, events[0], s1) && Next(env, s1, events[1], s2);
  }

  /** The chain can mine any live transaction, failing everything before it. */
  lemma {:induction false} MineLive(env: Env, s: Sys, i: TxRef) returns (states: seq<Sys>, events: seq<Event>)
    requires Inv(env, s) && NoncesOk(s) && Live(s, i)
    ensures Steps(env, states, events) && states[0] == s && ChainOnly(events)
    ensures SlotHolds(states[|events|], s.txs[i].id, s.txs[i].key)
    decreases s.txs[i].nonce - s.chain.next
  {
    if s.txs[i].nonce == s.chain.next {
      assert TxOk(env, s, s.txs[i]);
      states, events := MineNow(env, s, i);
    } else {
      assert s.chain.next in s.chain.pool && PoolOk(s, s.chain.next);
      var s1 := FailNext(env, s);
      MineKeepsLive(env, s, s1, i);
      states, events := MineLive(env, s1, i);
      states, events := Prepend(env, s, states, events);
    }
  }

  lemma FailNext(env: Env, s: Sys) returns (s': Sys)
    requires s.chain.next in s.chain.pool && PoolOk(s, s.chain.next)
    ensures Next(env, s, MineEv(false), s')
  {
    var c := s.chain.(next := s.chain.next + 1, pool := s.chain.pool - {s.chain.next});
    match s.chain.pool[s.chain.next]
    case Ours(tx) => s' := s.(chain := c.(receipts := c.receipts[tx := false]));
    case Theirs(_) => s' := s.(chain := c);
  }

  lemma MineKeepsLive(env: Env, s: Sys, s': Sys, i: TxRef)
    requires Inv(env, s) && NoncesOk(s) && Live(s, i) && s.chain.next < s.txs[i].nonce
    requires Next(env, s, MineEv(false), s')
    ensures Inv(env, s') && NoncesOk(s') && Live(s', i) && s'.chain.next == s.chain.next + 1 && s'.txs == s.txs
  {
    assert PoolOk(s, s.chain.next);
    InvStep(env, s, MineEv(false), s');
    NoncesStep(env, s, MineEv(false), s');
  }

  lemma Prepend(env: Env, s: Sys, states: seq<Sys>, events: seq<Event>) returns (ss: seq<Sys>, es: seq<Event>)
    requires Steps(env, states, events) && Next(env, s, MineEv(false), states[0]) && ChainOnly(events)
    ensures Steps(env, ss, es) && ss[0] == s && ChainOnly(es) && ss[|es|] == states[|events|]
  {
    ss, es := [s] + states, [MineEv(false)] + events;
    forall k | 0 <= k < |es|
      ensures Next(env, ss[k], es[k], ss[k + 1])
    {
      if k > 0 {
        assert es[k] == events[k - 1] && ss[k] == states[k - 1] && ss[k + 1] == states[k];
      }
    }
  }

  /**
    A slot holding key `k` keeps it whatever the chain does next exactly when no transaction of that
    workload that can still be mined carries another key.
   */
  lemma SlotIsSafeIff(env: Env, states: seq<Sys>, events: seq<Event>, n: nat, id: Digest, k: RevisionKey)
    requires Run(env, states, events) && NeverForgets(events) && n < |states|
    requires SlotHolds(states[n], id, k) && NoForeignWrite(states[n], id)
    ensures AlwaysHolds(env, states[n], id, k) <==> NoneSuperseded(states[n], id, k)
  {
    var s := states[n];
    InvAt(env, states, events, n);
    NoncesAt(env, states, events, n);
    if NoneSuperseded(s, id, k) {
      forall ss, es | Steps(env, ss, es) && ss[0] == s && ChainOnly(es)
        ensures SlotHolds(ss[|es|], id, k)
      {
        SteadyContinues(env, ss, es, id, k, |es|);
      }
    } else {
      var i: nat :| Live(s, i) && s.txs[i].id == id && s.txs[i].key != k;
      var ss, es := MineLive(env, s, i);
    }
  }
}
