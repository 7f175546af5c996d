/**
  Runs of the protocol that show which assumptions the theorems cannot do without. They happen for any
  workload and any two revisions of it that can be signed.
 */
module DeliveryRuns {
  import opened Types
  import opened PublisherState
  import opened Delivery
  import opened DeliveryTheorems
  import opened DeliveryOrder
  import opened DeliveryProgress

  /** The requests made in a run, in order. */
  function Requests(events: seq<Event>): seq<Desired> {
    if events == [] then []
    else
      var e := events[|events| - 1];
      Requests(events[..|events| - 1]) + (if e.EnqueueEv? then [e.d] else [])
  }

  /** Where a run started and what was asked for in it. */
  datatype Trace = Trace(env: Env, start: Sys, asked: seq<Desired>)
  {
    function Then(e: Event): Trace {
      if e.EnqueueEv? then this.(asked := asked + [e.d]) else this
    }
  }

  ghost predicate Follows(t: Trace, states: seq<Sys>, events: seq<Event>, s: Sys) {
    Steps(t.env, states, events) && states[0] == t.start && states[|events|] == s && Requests(events) == t.asked
  }

  ghost predicate Reach(t: Trace, s: Sys) {
    exists states, events :: Follows(t, states, events, s)
  }

  lemma ReachSelf(env: Env, s: Sys)
    ensures Reach(Trace(env, s, []), s)
  {
    assert Follows(Trace(env, s, []), [s], [], s);
  }

  lemma ReachNext(t: Trace, s: Sys, e: Event, s': Sys)
    requires Reach(t, s) && Next(t.env, s, e, s')
    ensures Reach(t.Then(e), s')
  {
    var states, events :| Follows(t, states, events, s);
    var states', events' := states + [s'], events + [e];
    forall k | 0 <= k < |events'|
      ensures Next(t.env, states'[k], events'[k], states'[k + 1])
    {
      if k < |events| {
        assert events'[k] == events[k] && states'[k] == states[k] && states'[k + 1] == states[k + 1];
      }
    }
    assert events'[..|events|] == events;
    assert Follows(t.Then(e), states', events', s');
  }

  // ---------- one workload, two revisions ----------

  /** Two different revisions of one workload, each with a signature that verifies for it. */
  datatype Scene = Scene(env: Env, id: Digest, a: Desired, b: Desired, sigA: Bytes, sigB: Bytes)
  {
    predicate Apt() {
      && Ready(env, id, a, sigA) && Ready(env, id, b, sigB) && env.keyOf(a) != env.keyOf(b)
    }
  }

  /** The revision belongs to the workload and can be published under the signature. */
  predicate Ready(env: Env, id: Digest, d: Desired, sig: Bytes) {
    env.idOf(d) == Some(id) && env.Authentic(d, sig) && env.keyOf(d).version != 0
  }

  function Start(chain: Chain): Sys {
    Sys(EmptyMemory, {}, {}, multiset{}, map[], chain, [], [], {}, multiset{})
  }

  /** No worker and nothing on its way to one, except perhaps in backoff. */
  predicate Calm(s: Sys) {
    s.workers == map[] && s.dirty == {} && s.adding == multiset{}
  }

  predicate New(s: Sys, id: Digest, key: RevisionKey) {
    id in s.mem.state ==> s.mem.state[id].confirmed != Some(key) && s.mem.state[id].key != key
  }

  /** The state of the workload once a new revision is asked for. */
  function Wanted(s: Sys, id: Digest, d: Desired, key: RevisionKey): WorkloadState {
    WorkloadState(d, s.mem.counter + 1, key, None, None, if id in s.mem.state then s.mem.state[id].confirmed else None)
  }

  function AskedState(s: Sys, id: Digest, d: Desired, key: RevisionKey): Sys {
    s.(mem := Memory(s.mem.state[id := Wanted(s, id, d, key)], s.mem.counter + 1), revs := s.revs + [Rev(id, d)])
  }

  /** `Enqueue` of a new revision and its `queue.Add`. */
  lemma Queued(t: Trace, s: Sys, id: Digest, d: Desired) returns (s': Sys)
    requires Reach(t, s) && Calm(s) && t.env.idOf(d) == Some(id) && New(s, id, t.env.keyOf(d))
    ensures Reach(t.Then(EnqueueEv(d)), s') && s' == AskedState(s, id, d, t.env.keyOf(d)).(dirty := {id})
  {
    var s1 := AskedState(s, id, d, t.env.keyOf(d)).(adding := multiset{id});
    assert Enqueue(t.env, s, d, s1);
    ReachNext(t, s, EnqueueEv(d), s1);
    s' := s1.(adding := multiset{}, dirty := {id});
    assert QueueAdd(s1, id, s');
    ReachNext(t.Then(EnqueueEv(d)), s1, AddEv(id), s');
  }

  /** ... and on to the snapshot its worker takes. */
  lemma Asked(t: Trace, s: Sys, id: Digest, d: Desired) returns (s': Sys)
    requires Reach(t, s) && Calm(s) && t.env.idOf(d) == Some(id) && New(s, id, t.env.keyOf(d))
    ensures Reach(t.Then(EnqueueEv(d)), s')
    ensures
      var key := t.env.keyOf(d);
      s' == AskedState(s, id, d, key).(workers := map[id := Reading(Wanted(s, id, d, key))])
  {
    var key, t' := t.env.keyOf(d), t.Then(EnqueueEv(d));
    var s1 := Queued(t, s, id, d);
    var s2 := s1.(dirty := {}, workers := map[id := Started]);
    assert QueueGet(s1, id, s2);
    ReachNext(t', s1, GetEv(id), s2);
    s' := s2.(workers := map[id := Reading(Wanted(s, id, d, key))]);
    assert Snapshot(s2, id, s');
    ReachNext(t', s2, SnapshotEv(id), s');
  }

  /** The first query finds something else, and the revision is signed. */
  lemma Signed(t: Trace, s: Sys, id: Digest, rev: WorkloadState, sig: Bytes) returns (s': Sys)
    requires Reach(t, s) && s.workers == map[id := Reading(rev)]
    requires rev.prepared.None? && rev.signature.None? && t.env.Authentic(rev.desired, sig)
    requires LatestOf(s.chain.log, id).Some? ==> LatestOf(s.chain.log, id).value.key != rev.key
    ensures Reach(t, s')
    ensures s' == s.(workers := map[id := Preparing(rev, sig)], calls := s.calls + multiset{SignOk(rev.number)})
  {
    var s1 := s.(workers := map[id := Signing(rev)]);
    assert ReadLatest(t.env, s, id, true, s1);
    ReachNext(t, s, LatestEv(id, true), s1);
    s' := s1.(workers := map[id := Preparing(rev, sig)], calls := s.calls + multiset{SignOk(rev.number)});
    assert Sign(t.env, s1, id, Some(sig), s');
    ReachNext(t, s1, SignEv(id, Some(sig)), s');
  }

  /** ... and a transaction is prepared for it. */
  lemma Prepared(t: Trace, s: Sys, id: Digest, rev: WorkloadState, sig: Bytes, nonce: nat) returns (s': Sys)
    requires Reach(t, s) && s.workers == map[id := Reading(rev)]
    requires rev.prepared.None? && rev.signature.None? && rev.key.version != 0 && t.env.Authentic(rev.desired, sig)
    requires LatestOf(s.chain.log, id).Some? ==> LatestOf(s.chain.log, id).value.key != rev.key
    requires IsPendingNonce(s.chain, nonce)
    ensures Reach(t, s')
    ensures s' == s.(workers := map[id := Installing(rev, sig, |s.txs|)],
                     calls := s.calls + multiset{SignOk(rev.number)},
                     txs := s.txs + [Tx(id, rev.number, rev.key, sig, nonce)])
  {
    var s1 := Signed(t, s, id, rev, sig);
    s' := s1.(workers := map[id := Installing(rev, sig, |s.txs|)],
              txs := s.txs + [Tx(id, rev.number, rev.key, sig, nonce)]);
    assert Prepare(s1, id, Some(nonce), s');
    ReachNext(t, s1, PrepareEv(id, Some(nonce)), s');
  }

  function Installed(m: Memory, id: Digest, sig: Bytes, tx: TxRef): Memory
    requires id in m.state
  {
    m.(state := m.state[id := m.state[id].(signature := Some(sig), prepared := Some(tx))])
  }

  /** The worker stores its signature and transaction. */
  lemma Stored(t: Trace, s: Sys, id: Digest, rev: WorkloadState, sig: Bytes, tx: TxRef) returns (s': Sys)
    requires Reach(t, s) && s.workers == map[id := Installing(rev, sig, tx)]
    requires id in s.mem.state && s.mem.state[id].number == rev.number
    ensures Reach(t, s')
    ensures s' == s.(mem := Installed(s.mem, id, sig, tx), workers := map[id := Sending(rev, tx)])
  {
    s' := s.(mem := Installed(s.mem, id, sig, tx), workers := map[id := Sending(rev, tx)]);
    assert Install(s, id, s');
    ReachNext(t, s, InstallEv(id), s');
  }

  /** The transaction is kept, sent and accepted; the worker waits. */
  lemma Submitted(t: Trace, s: Sys, id: Digest, rev: WorkloadState, sig: Bytes, tx: TxRef) returns (s': Sys)
    requires Reach(t, s) && s.workers == map[id := Installing(rev, sig, tx)]
    requires id in s.mem.state && s.mem.state[id].number == rev.number
    requires tx < |s.txs| && s.chain.next <= s.txs[tx].nonce
    ensures Reach(t, s')
    ensures s' == s.(mem := Installed(s.mem, id, sig, tx),
                     chain := s.chain.(sent := s.chain.sent + {tx}, pool := s.chain.pool[s.txs[tx].nonce := Ours(tx)]),
                     workers := map[id := Waiting(rev, tx)])
  {
    var s1 := Stored(t, s, id, rev, sig, tx);
    s' := s1.(chain := s.chain.(sent := s.chain.sent + {tx}, pool := s.chain.pool[s.txs[tx].nonce := Ours(tx)]),
              workers := map[id := Waiting(rev, tx)]);
    assert Send(s1, id, SendAccepted, s');
    ReachNext(t, s1, SendEv(id, SendAccepted), s');
  }

  /** Our transaction at the account nonce is mined and writes its record. */
  lemma Mined(t: Trace, s: Sys, tx: TxRef) returns (s': Sys)
    requires Reach(t, s) && tx < |s.txs| && s.chain.next in s.chain.pool && s.chain.pool[s.chain.next] == Ours(tx)
    requires Publishable(s.txs[tx].key, s.txs[tx].sig)
    ensures Reach(t, s') && Next(t.env, s, MineEv(true), s')
    ensures s' == s.(chain := Chain(s.chain.next + 1, s.chain.pool - {s.chain.next}, s.chain.sent,
                                    s.chain.receipts[tx := true],
                                    s.chain.log + [Entry(s.txs[tx].id, s.txs[tx].key, s.txs[tx].sig, Some(tx))]))
  {
    s' := s.(chain := Chain(s.chain.next + 1, s.chain.pool - {s.chain.next}, s.chain.sent,
                            s.chain.receipts[tx := true],
                            s.chain.log + [Entry(s.txs[tx].id, s.txs[tx].key, s.txs[tx].sig, Some(tx))]));
    ReachNext(t, s, MineEv(true), s');
  }

  /** `processNext` after `process` returned an error, or with nothing more to do. */
  lemma Returned(t: Trace, s: Sys, id: Digest, outcome: Outcome) returns (s': Sys)
    requires Reach(t, s) && s.workers == map[id := Finishing(outcome)] && outcome != Again
    ensures Reach(t, s')
    ensures s' == s.(workers := map[], backoff := if outcome.Failed? then s.backoff + {id} else s.backoff)
  {
    var s1 := s.(workers := map[id := Ending], backoff := if outcome.Failed? then s.backoff + {id} else s.backoff);
    assert Requeue(s, id, s1);
    ReachNext(t, s, FinishEv(id), s1);
    s' := s1.(workers := map[]);
    assert QueueDone(s1, id, s');
    ReachNext(t, s1, DoneEv(id), s');
  }

  /** The wait times out, the second query fails, and the worker backs off. */
  lemma GaveUp(t: Trace, s: Sys, id: Digest, rev: WorkloadState, tx: TxRef) returns (s': Sys)
    requires Reach(t, s) && s.workers == map[id := Waiting(rev, tx)]
    ensures Reach(t, s')
    ensures s' == s.(workers := map[], backoff := s.backoff + {id})
  {
    var s1 := s.(workers := map[id := Rereading(rev, tx)]);
    assert Wait(s, id, WaitUnknown, s1);
    ReachNext(t, s, WaitEv(id, WaitUnknown), s1);
    var s2 := s1.(workers := map[id := Finishing(Failed)]);
    assert Reread(t.env, s1, id, false, s2);
    ReachNext(t, s1, RereadEv(id, false), s2);
    s' := Returned(t, s2, id, Failed);
  }

  function Seen(m: Memory, id: Digest, key: RevisionKey): Memory
    requires id in m.state
  {
    m.(state := m.state[id := m.state[id].(confirmed := Some(key), prepared := None)])
  }

  /** The worker confirms the current revision and is done. */
  lemma Confirmed(t: Trace, s: Sys, id: Digest, rev: WorkloadState) returns (s': Sys)
    requires Reach(t, s) && s.workers == map[id := Confirming(rev)]
    requires id in s.mem.state && s.mem.state[id].number == rev.number
    ensures Reach(t, s')
    ensures s' == s.(mem := Seen(s.mem, id, rev.key), workers := map[])
  {
    var s1 := s.(mem := Seen(s.mem, id, rev.key), workers := map[id := Finishing(Finished)]);
    assert Confirm(s, id, s1);
    ReachNext(t, s, ConfirmEv(id), s1);
    s' := Returned(t, s1, id, Finished);
  }

  /** The first query finds the revision already in the slot, and the worker confirms it. */
  lemma Recognised(t: Trace, s: Sys, id: Digest, rev: WorkloadState) returns (s': Sys)
    requires Reach(t, s) && s.workers == map[id := Reading(rev)]
    requires id in s.mem.state && s.mem.state[id].number == rev.number
    requires Matches(t.env, rev, LatestOf(s.chain.log, id))
    ensures Reach(t, s')
    ensures s' == s.(mem := Seen(s.mem, id, rev.key), workers := map[])
  {
    var s1 := s.(workers := map[id := Confirming(rev)]);
    assert ReadLatest(t.env, s, id, true, s1);
    ReachNext(t, s, LatestEv(id, true), s1);
    s' := Confirmed(t, s1, id, rev);
  }

  /** The worker learns that its transaction succeeded. */
  lemma Told(t: Trace, s: Sys, id: Digest, rev: WorkloadState, tx: TxRef) returns (s': Sys)
    requires Reach(t, s) && s.workers == map[id := Waiting(rev, tx)]
    requires id in s.mem.state && s.mem.state[id].number == rev.number
    requires tx in s.chain.receipts && s.chain.receipts[tx]
    ensures Reach(t, s')
    ensures s' == s.(mem := Seen(s.mem, id, rev.key), workers := map[])
  {
    var s1 := s.(workers := map[id := Confirming(rev)]);
    assert Wait(s, id, WaitMinedSuccess, s1);
    ReachNext(t, s, WaitEv(id, WaitMinedSuccess), s1);
    s' := Confirmed(t, s1, id, rev);
  }

  // ---------- A, B, A ----------

  /** A request for the confirmed key leaves no trace. */
  lemma Dropped(t: Trace, s: Sys, id: Digest, d: Desired)
    requires Reach(t, s) && t.env.idOf(d) == Some(id)
    requires id in s.mem.state && s.mem.state[id].confirmed == Some(t.env.keyOf(d))
    ensures Reach(t.Then(EnqueueEv(d)), s)
  {
    assert Enqueue(t.env, s, d, s);
    ReachNext(t, s, EnqueueEv(d), s);
  }

  /** A is confirmed and B is being worked. */
  lemma ConfirmedThenAsked(c: Scene, s0: Sys) returns (s: Sys)
    requires c.Apt() && s0 == Start(Chain(0, map[], {}, map[], [Entry(c.id, c.env.keyOf(c.a), c.sigA, None)]))
    ensures Reach(Trace(c.env, s0, [c.a, c.b]), s) && s.chain == s0.chain && s.txs == []
    ensures s.dirty == {} && s.backoff == {} && s.adding == multiset{} && c.id in s.mem.state
    ensures
      var st := s.mem.state[c.id];
      && st == WorkloadState(c.b, 2, c.env.keyOf(c.b), None, None, Some(c.env.keyOf(c.a)))
      && s.workers == map[c.id := Reading(st)]
  {
    ReachSelf(c.env, s0);
    var t := Trace(c.env, s0, []);
    var s1 := Asked(t, s0, c.id, c.a);
    var s2 := Recognised(t.Then(EnqueueEv(c.a)), s1, c.id, s1.workers[c.id].rev);
    s := Asked(t.Then(EnqueueEv(c.a)), s2, c.id, c.b);
    assert [] + [c.a] + [c.b] == [c.a, c.b];
  }

  /** The first transaction of a run is sent, mined and confirmed. */
  lemma Published(t: Trace, s: Sys, id: Digest, rev: WorkloadState, sig: Bytes) returns (s': Sys)
    requires Reach(t, s) && s.workers == map[id := Reading(rev)] && id in s.mem.state && s.mem.state[id] == rev
    requires rev.prepared.None? && rev.signature.None? && rev.key.version != 0 && t.env.Authentic(rev.desired, sig)
    requires LatestOf(s.chain.log, id).Some? ==> LatestOf(s.chain.log, id).value.key != rev.key
    requires s.txs == [] && s.chain.pool == map[]
    ensures Reach(t, s') && s'.workers == map[] && SlotHolds(s', id, rev.key)
    ensures s'.dirty == s.dirty && s'.backoff == s.backoff && s'.adding == s.adding
    ensures id in s'.mem.state && s'.mem.state[id].key == rev.key && s'.mem.state[id].confirmed == Some(rev.key)
  {
    var s1 := Prepared(t, s, id, rev, sig, s.chain.next);
    var s2 := Submitted(t, s1, id, rev, sig, 0);
    var s3 := Mined(t, s2, 0);
    LatestAfter(s2.chain.log, Entry(id, rev.key, sig, Some(0)), id);
    s' := Told(t, s3, id, rev, 0);
  }

  /**
    A is confirmed, B is asked for, then A again, and nothing more. The last request is dropped: B is published
    and confirmed, and the publisher comes to rest with B in the slot.
   */
  lemma RepeatedRequestIsLost(c: Scene) returns (s0: Sys, s: Sys)
    requires c.Apt()
    ensures Fresh(s0) && Reach(Trace(c.env, s0, [c.a, c.b, c.a]), s)
    ensures Calm(s) && s.backoff == {} && SlotHolds(s, c.id, c.env.keyOf(c.b)) && c.id in s.mem.state
    ensures s.mem.state[c.id].key == c.env.keyOf(c.b) && s.mem.state[c.id].confirmed == Some(c.env.keyOf(c.b))
  {
    s0 := Start(Chain(0, map[], {}, map[], [Entry(c.id, c.env.keyOf(c.a), c.sigA, None)]));
    var s1 := ConfirmedThenAsked(c, s0);
    Dropped(Trace(c.env, s0, [c.a, c.b]), s1, c.id, c.a);
    assert [c.a, c.b] + [c.a] == [c.a, c.b, c.a];
    s := Published(Trace(c.env, s0, [c.a, c.b, c.a]), s1, c.id, s1.workers[c.id].rev, c.sigB);
  }

  // ---------- a confirmed revision is overwritten ----------

  /** The first revision of a run is asked for, and its transaction left pending with its fate unknown. */
  lemma LeftPending(t: Trace, s0: Sys, id: Digest, d: Desired, sig: Bytes, nonce: nat) returns (s: Sys)
    requires t == Trace(t.env, s0, []) && s0 == Start(s0.chain) && Ready(t.env, id, d, sig)
    requires LatestOf(s0.chain.log, id).Some? ==> LatestOf(s0.chain.log, id).value.key != t.env.keyOf(d)
    requires IsPendingNonce(s0.chain, nonce)
    ensures Reach(Trace(t.env, s0, [d]), s) && Calm(s) && id in s.mem.state && s.mem.counter == 1
    ensures s.mem.state[id].confirmed.None? && s.mem.state[id].key == t.env.keyOf(d)
    ensures s.mem.state[id].prepared == Some(0)
    ensures s.txs == [Tx(id, 1, t.env.keyOf(d), sig, nonce)]
    ensures s.chain == s0.chain.(sent := s0.chain.sent + {0}, pool := s0.chain.pool[nonce := Ours(0)])
  {
    ReachSelf(t.env, s0);
    var a := Asked(t, s0, id, d);
    assert [] + [d] == [d];
    s := SubmittedUnknown(Trace(t.env, s0, [d]), a, id, a.workers[id].rev, sig, nonce);
  }

  /** From the snapshot of the first revision to a transaction whose fate stays unknown. */
  lemma SubmittedUnknown(t: Trace, a: Sys, id: Digest, rev: WorkloadState, sig: Bytes, nonce: nat) returns (s: Sys)
    requires Reach(t, a) && a.workers == map[id := Reading(rev)] && id in a.mem.state && a.mem.state[id] == rev
    requires rev.prepared.None? && rev.signature.None? && rev.key.version != 0 && t.env.Authentic(rev.desired, sig)
    requires LatestOf(a.chain.log, id).Some? ==> LatestOf(a.chain.log, id).value.key != rev.key
    requires IsPendingNonce(a.chain, nonce) && a.txs == [] && a.dirty == {} && a.adding == multiset{}
    ensures Reach(t, s) && Calm(s) && s.mem == Installed(a.mem, id, sig, 0)
    ensures s.txs == [Tx(id, rev.number, rev.key, sig, nonce)]
    ensures s.chain == a.chain.(sent := a.chain.sent + {0}, pool := a.chain.pool[nonce := Ours(0)])
  {
    var b := Prepared(t, a, id, rev, sig, nonce);
    assert b.txs == [Tx(id, rev.number, rev.key, sig, nonce)];
    var c := Submitted(t, b, id, rev, sig, 0);
    s := GaveUp(t, c, id, rev, 0);
  }

  /**
    The slot holds B from an earlier process. A is asked for and its transaction left pending; B is asked
    for again and confirmed by reading the slot; then A's transaction is mined over it. No transaction was
    dropped and nobody else wrote, yet the publisher counts B as confirmed while the slot holds A.
   */
  lemma ConfirmedYetOverwritten(c: Scene) returns (s0: Sys, s1: Sys, s2: Sys)
    requires c.Apt()
    ensures Fresh(s0) && Reach(Trace(c.env, s0, [c.a, c.b]), s1) && Next(c.env, s1, MineEv(true), s2)
    ensures c.id in s1.mem.state && s1.mem.state[c.id].key == c.env.keyOf(c.b)
    ensures s2.mem == s1.mem && s1.mem.state[c.id].confirmed == Some(c.env.keyOf(c.b)) && Calm(s2)
    ensures SlotHolds(s1, c.id, c.env.keyOf(c.b)) && !NoneSuperseded(s1, c.id, c.env.keyOf(c.b))
    ensures SlotHolds(s2, c.id, c.env.keyOf(c.a))
  {
    var keyA, keyB := c.env.keyOf(c.a), c.env.keyOf(c.b);
    s0 := Start(Chain(0, map[], {}, map[], [Entry(c.id, keyB, c.sigB, None)]));
    var d := LeftPending(Trace(c.env, s0, []), s0, c.id, c.a, c.sigA, 0);
    var e := Asked(Trace(c.env, s0, [c.a]), d, c.id, c.b);
    assert [c.a] + [c.b] == [c.a, c.b];
    var t := Trace(c.env, s0, [c.a, c.b]);
    s1 := Recognised(t, e, c.id, e.workers[c.id].rev);
    assert Live(s1, 0);
    s2 := Mined(t, s1, 0);
    LatestAfter(s1.chain.log, Entry(c.id, keyA, c.sigA, Some(0)), c.id);
  }

  // ---------- dropped transactions undo the order ----------

  lemma Forgotten(t: Trace, s: Sys, nonce: nat) returns (s': Sys)
    requires Reach(t, s) && nonce in s.chain.pool
    ensures Reach(t, s')
    ensures s' == s.(chain := s.chain.(pool := s.chain.pool - {nonce}))
  {
    s' := s.(chain := s.chain.(pool := s.chain.pool - {nonce}));
    ReachNext(t, s, ForgetEv(nonce), s');
  }

  lemma Delivered(t: Trace, s: Sys, tx: TxRef) returns (s': Sys)
    requires Reach(t, s) && tx in s.chain.sent && tx < |s.txs| && s.chain.next <= s.txs[tx].nonce
    ensures Reach(t, s')
    ensures s' == s.(chain := s.chain.(pool := s.chain.pool[s.txs[tx].nonce := Ours(tx)]))
  {
    s' := s.(chain := s.chain.(pool := s.chain.pool[s.txs[tx].nonce := Ours(tx)]));
    ReachNext(t, s, DeliverEv(tx), s');
  }

  /** Behind somebody's transaction, revision A is left pending at nonce 1; then the node drops both. */
  lemma OlderForgotten(c: Scene, s0: Sys) returns (s: Sys)
    requires c.Apt() && s0 == Start(Chain(0, map[0 := Theirs(None)], {}, map[], []))
    ensures Reach(Trace(c.env, s0, [c.a]), s) && Calm(s) && c.id in s.mem.state && s.mem.counter == 1
    ensures s.mem.state[c.id].confirmed.None? && s.mem.state[c.id].key == c.env.keyOf(c.a)
    ensures s.txs == [Tx(c.id, 1, c.env.keyOf(c.a), c.sigA, 1)] && s.chain == Chain(0, map[], {0}, map[], [])
  {
    var t := Trace(c.env, s0, [c.a]);
    var d := LeftPending(Trace(c.env, s0, []), s0, c.id, c.a, c.sigA, 1);
    var e := Forgotten(t, d, 0);
    s := Forgotten(t, e, 1);
    assert s.chain.pool == map[] && s.chain.sent == {0};
  }

  /** Revision B is prepared under the freed nonce 0 and sent. */
  lemma NewerSent(c: Scene, s0: Sys, f: Sys) returns (s: Sys)
    requires c.Apt() && Reach(Trace(c.env, s0, [c.a]), f) && Calm(f) && c.id in f.mem.state && f.mem.counter == 1
    requires f.mem.state[c.id].confirmed.None? && f.mem.state[c.id].key == c.env.keyOf(c.a)
    requires f.txs == [Tx(c.id, 1, c.env.keyOf(c.a), c.sigA, 1)] && f.chain == Chain(0, map[], {0}, map[], [])
    ensures Reach(Trace(c.env, s0, [c.a, c.b]), s)
    ensures s.txs == [Tx(c.id, 1, c.env.keyOf(c.a), c.sigA, 1), Tx(c.id, 2, c.env.keyOf(c.b), c.sigB, 0)]
    ensures s.chain == Chain(0, map[0 := Ours(1)], {0, 1}, map[], [])
  {
    var g := Asked(Trace(c.env, s0, [c.a]), f, c.id, c.b);
    assert [c.a] + [c.b] == [c.a, c.b];
    var t := Trace(c.env, s0, [c.a, c.b]);
    var rev := g.workers[c.id].rev;
    var h := Prepared(t, g, c.id, rev, c.sigB, 0);
    s := Submitted(t, h, c.id, rev, c.sigB, 1);
  }

  /** If the node may drop transactions, an older revision can be mined after a newer one. */
  lemma ForgottenBreaksOrder(c: Scene) returns (s0: Sys, s: Sys)
    requires c.Apt()
    ensures Fresh(s0) && Reach(Trace(c.env, s0, [c.a, c.b]), s)
    ensures OursAt(s, 0) && OursAt(s, 1) && s.chain.log[0].id == s.chain.log[1].id == c.id
    ensures NumberAt(s, 0) > NumberAt(s, 1)
  {
    s0 := Start(Chain(0, map[0 := Theirs(None)], {}, map[], []));
    var t := Trace(c.env, s0, [c.a, c.b]);
    var f := OlderForgotten(c, s0);
    var g := NewerSent(c, s0, f);
    var h := Mined(t, g, 1);
    var i := Delivered(t, h, 0);
    s := Mined(t, i, 0);
  }

  // ---------- a nonce is taken ----------

  /** Another transaction of the account replaces the one under nonce 0 and is mined. */
  lemma NonceTaken(t: Trace, s: Sys) returns (s': Sys)
    requires Reach(t, s) && s.chain.next == 0
    ensures Reach(t, s') && OnlyChain(s, s')
    ensures s'.chain == s.chain.(next := 1, pool := s.chain.pool - {0})
  {
    var s1 := s.(chain := s.chain.(pool := s.chain.pool[0 := Theirs(None)]));
    assert Foreign(s, 0, None, s1);
    ReachNext(t, s, ForeignEv(0, None), s1);
    s' := s.(chain := s.chain.(next := 1, pool := s.chain.pool - {0}));
    assert s1.chain.pool - {0} == s.chain.pool - {0};
    assert Mine(s1, true, s');
    ReachNext(t, s1, MineEv(true), s');
  }

  /**
    The transaction of a revision is sent, but another one of the account is mined under its nonce. The
    transaction is kept for good and the revision is stuck.
   */
  lemma TakenNonceStrands(c: Scene) returns (s0: Sys, s: Sys)
    requires c.Apt()
    ensures Fresh(s0) && Reach(Trace(c.env, s0, [c.a]), s)
    ensures RestsStuck(c.env, s, c.id) && NoForeignWrite(s, c.id)
  {
    s0 := Start(Chain(0, map[], {}, map[], []));
    var d := LeftPending(Trace(c.env, s0, []), s0, c.id, c.a, c.sigA, 0);
    s := NonceTaken(Trace(c.env, s0, [c.a]), d);
    assert d.chain.pool - {0} == map[];
  }
}
