/** Every step of the delivery protocol preserves `DeliveryInvariants.Core`. */
module DeliverySteps {
  import opened Types
  import opened PublisherState
  import opened Delivery
  import opened DeliveryInvariants

  /** Steps of the chain and of the queue alone. */
  ghost predicate Idle(s: Sys, s': Sys) {
    && s'.mem == s.mem && s'.workers == s.workers && s'.revs == s.revs && s'.txs == s.txs
    && s'.observed == s.observed && s'.calls == s.calls && s.chain.log <= s'.chain.log
  }

  lemma IdleMem(env: Env, s: Sys, s': Sys, o: Digest)
    requires Idle(s, s') && o in s.mem.state && MemOk(env, s, o)
    ensures MemOk(env, s', o)
  {
    if s.mem.state[o].confirmed.Some? {
      VouchedGrows(env, s, s', o, s.mem.state[o].confirmed.value);
    }
  }

  lemma IdleWork(env: Env, s: Sys, s': Sys, o: Digest)
    requires Idle(s, s') && o in s.workers && WorkOk(env, s, o)
    ensures WorkOk(env, s', o)
  {
    if s.workers[o].Confirming? {
      VouchedGrows(env, s, s', o, s.workers[o].rev.key);
    }
  }

  lemma IdleKeeps(env: Env, s: Sys, s': Sys)
    requires Core(env, s) && Idle(s, s')
    ensures Core(env, s')
  {
    forall o | o in s'.mem.state
      ensures MemOk(env, s', o)
    {
      IdleMem(env, s, s', o);
    }
    forall o | o in s'.workers
      ensures WorkOk(env, s', o)
    {
      IdleWork(env, s, s', o);
    }
    CarryTx(env, s, s');
  }

  lemma EnqueueKeeps(env: Env, s: Sys, d: Desired, s': Sys)
    requires Core(env, s) && Enqueue(env, s, d, s')
    ensures Core(env, s')
  {
    if env.idOf(d).Some? {
      var id := env.idOf(d).value;
      if s'.mem.counter == s.mem.counter {
        IdleKeeps(env, s, s');
      } else {
        EnqueueAround(env, s, d, s', id);
        EnqueueNewMem(env, s, d, s', id);
        EnqueueNewWork(env, s, d, s', id);
        Carry(env, s, s', id);
      }
    }
  }

  lemma EnqueueAround(env: Env, s: Sys, d: Desired, s': Sys, id: Digest)
    requires CallsOk(s) && Enqueue(env, s, d, s') && env.idOf(d) == Some(id) && s'.mem.counter != s.mem.counter
    ensures Around(s, s', id) && CallsOk(s')
  {
  }

  lemma EnqueueNewMem(env: Env, s: Sys, d: Desired, s': Sys, id: Digest)
    requires Core(env, s) && Enqueue(env, s, d, s') && env.idOf(d) == Some(id) && s'.mem.counter != s.mem.counter
    ensures id in s'.mem.state && MemOk(env, s', id)
  {
    var n := |s.revs| + 1;
    assert SignOk(n) == SignOk(n);
    if id in s.mem.state && s.mem.state[id].confirmed.Some? {
      VouchedGrows(env, s, s', id, s.mem.state[id].confirmed.value);
    }
  }

  lemma EnqueueNewWork(env: Env, s: Sys, d: Desired, s': Sys, id: Digest)
    requires Core(env, s) && Enqueue(env, s, d, s') && env.idOf(d) == Some(id) && s'.mem.counter != s.mem.counter
    ensures id in s'.workers ==> WorkOk(env, s', id)
  {
    if id in s.workers && s.workers[id].HasRev() {
      assert WorkOk(env, s, id);
      assert MemOk(env, s, id);
      if s.workers[id].Confirming? {
        VouchedGrows(env, s, s', id, s.workers[id].rev.key);
      }
    }
  }

  /** A worker moves on; memory, transactions and counted calls stay. */
  ghost predicate Moved(s: Sys, s': Sys, id: Digest) {
    && s'.mem == s.mem && s'.revs == s.revs && s'.txs == s.txs && s'.calls == s.calls
    && s.observed <= s'.observed && s.chain.log <= s'.chain.log
    && (forall o :: o != id ==>
          (o in s.workers <==> o in s'.workers) && (o in s.workers ==> s'.workers[o] == s.workers[o]))
    && (id in s.workers ==> !s.workers[id].Installing? && !s.workers[id].Preparing?)
  }

  lemma MoveKeeps(env: Env, s: Sys, s': Sys, id: Digest)
    requires Core(env, s) && Moved(s, s', id)
    requires id in s'.workers ==> WorkOk(env, s', id)
    ensures Core(env, s')
  {
    if id in s'.mem.state {
      assert MemOk(env, s, id);
      if s.mem.state[id].confirmed.Some? {
        VouchedGrows(env, s, s', id, s.mem.state[id].confirmed.value);
      }
      assert MemOk(env, s', id);
    }
    Carry(env, s, s', id);
  }

  lemma SnapshotKeeps(env: Env, s: Sys, id: Digest, s': Sys)
    requires Core(env, s) && Snapshot(s, id, s')
    ensures Core(env, s')
  {
    if id in s.mem.state {
      assert MemOk(env, s, id);
      assert WorkOk(env, s', id);
    }
    MoveKeeps(env, s, s', id);
  }

  /** The record a reader matched is in the log. */
  lemma LatestIsLogged(log: seq<Entry>, id: Digest) returns (p: nat)
    requires LatestOf(log, id).Some?
    ensures p < |log| && log[p] == LatestOf(log, id).value && log[p].id == id
    ensures forall q :: p < q < |log| ==> log[q].id != id
  {
    if log[|log| - 1].id == id {
      p := |log| - 1;
    } else {
      p := LatestIsLogged(log[..|log| - 1], id);
    }
  }

  lemma MatchVouches(env: Env, s: Sys, id: Digest, rev: WorkloadState)
    requires RevOk(env, s, id, rev) && Matches(env, rev, LatestOf(s.chain.log, id))
    ensures Vouched(env, s, id, rev.key)
  {
    var p := LatestIsLogged(s.chain.log, id);
    assert Vouches(env, s, id, rev.key, p, rev.number);
  }

  lemma ReadLatestKeeps(env: Env, s: Sys, id: Digest, readable: bool, s': Sys)
    requires Core(env, s) && ReadLatest(env, s, id, readable, s')
    ensures Core(env, s')
  {
    assert WorkOk(env, s, id);
    var rev := s.workers[id].rev;
    if Matches(env, rev, LatestOf(s.chain.log, id)) {
      MatchVouches(env, s, id, rev);
      VouchedGrows(env, s, s', id, rev.key);
    }
    assert WorkOk(env, s', id);
    MoveKeeps(env, s, s', id);
  }

  lemma RereadKeeps(env: Env, s: Sys, id: Digest, readable: bool, s': Sys)
    requires Core(env, s) && Reread(env, s, id, readable, s')
    ensures Core(env, s')
  {
    assert WorkOk(env, s, id);
    var rev := s.workers[id].rev;
    if Matches(env, rev, LatestOf(s.chain.log, id)) {
      MatchVouches(env, s, id, rev);
      VouchedGrows(env, s, s', id, rev.key);
    }
    assert WorkOk(env, s', id);
    MoveKeeps(env, s, s', id);
  }

  lemma SignAround(env: Env, s: Sys, id: Digest, sig: Option<Bytes>, s': Sys)
    requires Sign(env, s, id, sig, s') && WorkOk(env, s, id) && CallsOk(s)
    ensures Around(s, s', id) && CallsOk(s')
  {
    var n := s.workers[id].rev.number;
    SignCalls(s, n, s', if sig.Some? then SignOk(n) else SignFailed(n));
  }

  lemma SignMem(env: Env, s: Sys, id: Digest, sig: Option<Bytes>, s': Sys)
    requires Sign(env, s, id, sig, s') && WorkOk(env, s, id) && id in s.mem.state && MemOk(env, s, id)
    ensures MemOk(env, s', id)
  {
    if s.mem.state[id].confirmed.Some? {
      VouchedGrows(env, s, s', id, s.mem.state[id].confirmed.value);
    }
  }

  lemma SignKeeps(env: Env, s: Sys, id: Digest, sig: Option<Bytes>, s': Sys)
    requires Core(env, s) && Sign(env, s, id, sig, s')
    ensures Core(env, s')
  {
    assert WorkOk(env, s, id);
    SignAround(env, s, id, sig, s');
    SignMem(env, s, id, sig, s');
    assert WorkOk(env, s', id);
    Carry(env, s, s', id);
  }

  lemma SignCalls(s: Sys, n: nat, s': Sys, call: Call)
    requires CallsOk(s) && s'.revs == s.revs && s'.calls == s.calls + multiset{call} && call.number == n
    requires call.SignOk? ==> Unsigned(s, n) && 1 <= n <= |s.revs|
    ensures CallsOk(s')
    ensures forall m: nat {:trigger SignOk(m)} :: m != n ==>
      s'.calls[SignOk(m)] == s.calls[SignOk(m)] && s'.calls[PrepareFailed(m)] == s.calls[PrepareFailed(m)]
  {
  }

  lemma PrepareFailMem(env: Env, s: Sys, id: Digest, s': Sys)
    requires Prepare(s, id, None, s') && WorkOk(env, s, id) && id in s.mem.state && MemOk(env, s, id) && CallsOk(s)
    ensures Around(s, s', id) && CallsOk(s') && MemOk(env, s', id)
  {
    var n := s.workers[id].rev.number;
    assert SignOk(n) == SignOk(n);
    SignCalls(s, n, s', PrepareFailed(n));
    if s.mem.state[id].confirmed.Some? {
      VouchedGrows(env, s, s', id, s.mem.state[id].confirmed.value);
    }
  }

  lemma PrepareFailKeeps(env: Env, s: Sys, id: Digest, s': Sys)
    requires Core(env, s) && Prepare(s, id, None, s')
    ensures Core(env, s')
  {
    assert WorkOk(env, s, id);
    PrepareFailMem(env, s, id, s');
    Carry(env, s, s', id);
  }

  lemma PrepareMem(env: Env, s: Sys, id: Digest, nonce: nat, s': Sys)
    requires Prepare(s, id, Some(nonce), s') && WorkOk(env, s, id) && id in s.mem.state && MemOk(env, s, id)
    ensures Around(s, s', id) && MemOk(env, s', id)
  {
    if s.mem.state[id].confirmed.Some? {
      VouchedGrows(env, s, s', id, s.mem.state[id].confirmed.value);
    }
  }

  lemma PrepareWork(env: Env, s: Sys, id: Digest, nonce: nat, s': Sys)
    requires Core(env, s) && Prepare(s, id, Some(nonce), s')
    ensures WorkOk(env, s', id)
  {
    assert WorkOk(env, s, id);
  }

  lemma PrepareTx(env: Env, s: Sys, id: Digest, nonce: nat, s': Sys)
    requires Core(env, s) && Prepare(s, id, Some(nonce), s')
    ensures AllTx(env, s') && PrepareOrder(s')
  {
    assert WorkOk(env, s, id);
  }

  lemma PrepareKeeps(env: Env, s: Sys, id: Digest, nonce: nat, s': Sys)
    requires Core(env, s) && Prepare(s, id, Some(nonce), s')
    ensures Core(env, s')
  {
    assert WorkOk(env, s, id);
    PrepareMem(env, s, id, nonce, s');
    PrepareWork(env, s, id, nonce, s');
    PrepareTx(env, s, id, nonce, s');
    CarryMem(env, s, s', id);
    CarryWork(env, s, s', id);
  }

  lemma InstallMem(env: Env, s: Sys, id: Digest, s': Sys)
    requires Install(s, id, s') && WorkOk(env, s, id) && id in s.mem.state && MemOk(env, s, id)
    ensures MemOk(env, s', id)
  {
    if s.mem.state[id].confirmed.Some? {
      VouchedGrows(env, s, s', id, s.mem.state[id].confirmed.value);
    }
  }

  lemma InstallKeeps(env: Env, s: Sys, id: Digest, s': Sys)
    requires Core(env, s) && Install(s, id, s')
    ensures Core(env, s')
  {
    assert WorkOk(env, s, id);
    InstallMem(env, s, id, s');
    assert WorkOk(env, s', id);
    Carry(env, s, s', id);
  }

  lemma SendKeeps(env: Env, s: Sys, id: Digest, outcome: SendOutcome, s': Sys)
    requires Core(env, s) && Send(s, id, outcome, s')
    ensures Core(env, s')
  {
    assert WorkOk(env, s, id);
    assert WorkOk(env, s', id);
    MoveKeeps(env, s, s', id);
  }

  lemma WaitWork(env: Env, s: Sys, id: Digest, outcome: WaitOutcome, s': Sys)
    requires Wait(s, id, outcome, s') && WorkOk(env, s, id)
    requires outcome.WaitMinedSuccess? ==> Vouched(env, s, id, s.workers[id].rev.key)
    ensures Moved(s, s', id) && WorkOk(env, s', id)
  {
    if outcome.WaitMinedSuccess? {
      VouchedGrows(env, s, s', id, s.workers[id].rev.key);
    }
  }

  lemma WaitKeeps(env: Env, s: Sys, id: Digest, outcome: WaitOutcome, s': Sys)
    requires Inv(env, s) && Wait(s, id, outcome, s')
    ensures Core(env, s')
  {
    assert WorkOk(env, s, id);
    if outcome.WaitMinedSuccess? {
      assert TxOk(env, s, s.txs[s.workers[id].tx]);
      MinedVouches(env, s, id);
    }
    WaitWork(env, s, id, outcome, s');
    MoveKeeps(env, s, s', id);
  }

  lemma MinedVouches(env: Env, s: Sys, id: Digest)
    requires id in s.workers && WorkOk(env, s, id) && s.workers[id].Waiting?
    requires s.workers[id].tx in s.chain.receipts && s.chain.receipts[s.workers[id].tx]
    requires ReceiptOk(s, s.workers[id].tx) && TxOk(env, s, s.txs[s.workers[id].tx])
    ensures Vouched(env, s, id, s.workers[id].rev.key)
  {
    var Waiting(rev, t) := s.workers[id];
    var p :| Logged(s, t, p);
    assert Vouches(env, s, id, rev.key, p, rev.number);
  }

  lemma ConfirmMem(env: Env, s: Sys, id: Digest, s': Sys)
    requires Confirm(s, id, s') && WorkOk(env, s, id) && id in s.mem.state && MemOk(env, s, id) && AllTx(env, s)
    ensures MemOk(env, s', id)
  {
    VouchedGrows(env, s, s', id, s.workers[id].rev.key);
  }

  lemma ConfirmAround(s: Sys, id: Digest, s': Sys)
    requires Confirm(s, id, s')
    ensures Around(s, s', id) && s'.workers[id].Finishing?
  {
  }

  lemma ConfirmKeeps(env: Env, s: Sys, id: Digest, s': Sys)
    requires Core(env, s) && Confirm(s, id, s')
    ensures Core(env, s')
  {
    assert WorkOk(env, s, id);
    ConfirmMem(env, s, id, s');
    ConfirmAround(s, id, s');
    Carry(env, s, s', id);
  }

  lemma DiscardMem(env: Env, s: Sys, id: Digest, s': Sys)
    requires Discard(s, id, s') && WorkOk(env, s, id) && id in s.mem.state && MemOk(env, s, id)
    ensures MemOk(env, s', id)
  {
    if s.mem.state[id].confirmed.Some? {
      VouchedGrows(env, s, s', id, s.mem.state[id].confirmed.value);
    }
  }

  lemma DiscardKeeps(env: Env, s: Sys, id: Digest, s': Sys)
    requires Core(env, s) && Discard(s, id, s')
    ensures Core(env, s')
  {
    assert WorkOk(env, s, id);
    DiscardMem(env, s, id, s');
    Carry(env, s, s', id);
  }

  lemma QueueMoves(s: Sys, e: Event, s': Sys)
    requires e.Queues() && QueueNext(s, e, s')
    ensures e.AddEv? || e.BackoffEv? ==> Idle(s, s')
    ensures !e.AddEv? && !e.BackoffEv? ==> Moved(s, s', e.id) && (e.id in s'.workers ==> !s'.workers[e.id].HasRev())
  {
  }

  lemma QueueKeeps(env: Env, s: Sys, e: Event, s': Sys)
    requires Core(env, s) && e.Queues() && QueueNext(s, e, s')
    ensures Core(env, s')
  {
    QueueMoves(s, e, s');
    if e.AddEv? || e.BackoffEv? {
      IdleKeeps(env, s, s');
    } else {
      MoveKeeps(env, s, s', e.id);
    }
  }

  lemma ChainIdle(s: Sys, e: Event, s': Sys)
    requires e.OfChain() && ChainNext(s, e, s')
    ensures Idle(s, s')
  {
    assert s.chain.log <= s'.chain.log;
  }

  lemma WriteKeeps(env: Env, s: Sys, e: Event, s': Sys)
    requires Core(env, s) && e.Writes() && WriteNext(env, s, e, s')
    ensures Core(env, s')
  {
    match e
    case EnqueueEv(d) => EnqueueKeeps(env, s, d, s');
    case InstallEv(id) => InstallKeeps(env, s, id, s');
    case ConfirmEv(id) => ConfirmKeeps(env, s, id, s');
    case DiscardEv(id) => DiscardKeeps(env, s, id, s');
  }

  lemma LookKeeps(env: Env, s: Sys, e: Event, s': Sys)
    requires Core(env, s) && e.Looks() && LookNext(env, s, e, s')
    ensures Core(env, s')
  {
    match e
    case SnapshotEv(id) => SnapshotKeeps(env, s, id, s');
    case LatestEv(id, readable) => ReadLatestKeeps(env, s, id, readable, s');
    case RereadEv(id, readable) => RereadKeeps(env, s, id, readable, s');
  }

  lemma CallKeeps(env: Env, s: Sys, e: Event, s': Sys)
    requires Inv(env, s) && e.Calls() && CallNext(env, s, e, s')
    ensures Core(env, s')
  {
    match e
    case SignEv(id, sig) => SignKeeps(env, s, id, sig, s');
    case PrepareEv(id, Some(nonce)) => PrepareKeeps(env, s, id, nonce, s');
    case PrepareEv(id, None) => PrepareFailKeeps(env, s, id, s');
    case SendEv(id, sent) => SendKeeps(env, s, id, sent, s');
    case WaitEv(id, waited) => WaitKeeps(env, s, id, waited, s');
  }

  lemma CoreStep(env: Env, s: Sys, e: Event, s': Sys)
    requires Inv(env, s) && Next(env, s, e, s')
    ensures Core(env, s')
  {
    if e.Writes() {
      WriteKeeps(env, s, e, s');
    } else if e.Queues() {
      QueueKeeps(env, s, e, s');
    } else if e.OfChain() {
      ChainIdle(s, e, s');
      IdleKeeps(env, s, s');
    } else if e.Looks() {
      LookKeeps(env, s, e, s');
    } else {
      CallKeeps(env, s, e, s');
    }
  }

  // ---------- the chain invariant ----------

  lemma ReceiptStays(s: Sys, s': Sys, t: TxRef)
    requires t in s.chain.receipts && ReceiptOk(s, t)
    requires t in s'.chain.receipts && s'.chain.receipts[t] == s.chain.receipts[t]
    requires s.txs <= s'.txs && s.chain.log <= s'.chain.log && s.chain.next <= s'.chain.next
    ensures ReceiptOk(s', t)
  {
    if s.chain.receipts[t] {
      var p :| Logged(s, t, p);
      assert Logged(s', t, p);
    }
  }

  lemma EntryStays(s: Sys, s': Sys, p: nat)
    requires p < |s.chain.log| && EntryOk(s, p)
    requires s.txs <= s'.txs && s.chain.log <= s'.chain.log
    requires forall t :: t in s.chain.receipts ==> t in s'.chain.receipts && s'.chain.receipts[t] == s.chain.receipts[t]
    ensures EntryOk(s', p)
  {
    if s.chain.log[p].source.Some? {
      assert Logged(s', s.chain.log[p].source.value, p);
    }
  }

  /** When nothing is mined, receipts and log entries keep their meaning. */
  lemma UnminedKeeps(s: Sys, s': Sys)
    requires ReceiptsOk(s) && EntriesOk(s) && NonceOrder(s)
    requires s'.chain.receipts == s.chain.receipts && s.chain.next <= s'.chain.next && s.txs <= s'.txs
    requires s'.chain.log == s.chain.log
    ensures ReceiptsOk(s') && EntriesOk(s') && NonceOrder(s')
  {
    forall t | t in s'.chain.receipts
      ensures ReceiptOk(s', t)
    {
      ReceiptStays(s, s', t);
    }
    forall p | 0 <= p < |s'.chain.log|
      ensures EntryOk(s', p)
    {
      EntryStays(s, s', p);
    }
  }

  lemma SendChain(env: Env, s: Sys, id: Digest, outcome: SendOutcome, s': Sys)
    requires ChainOk(s) && Send(s, id, outcome, s') && WorkOk(env, s, id)
    ensures ChainOk(s')
  {
    UnminedKeeps(s, s');
    assert forall n :: n in s.chain.pool ==> PoolOk(s, n);
  }

  lemma PoolChain(s: Sys, e: Event, s': Sys)
    requires ChainOk(s) && e.OfChain() && ChainNext(s, e, s') && !e.MineEv?
    ensures ChainOk(s')
  {
    UnminedKeeps(s, s');
    assert forall n :: n in s.chain.pool ==> PoolOk(s, n);
  }

  lemma MineEntries(s: Sys, success: bool, s': Sys)
    requires ChainOk(s) && Mine(s, success, s')
    ensures EntriesOk(s')
  {
    assert PoolOk(s, s.chain.next);
    forall p | 0 <= p < |s'.chain.log|
      ensures EntryOk(s', p)
    {
      if p < |s.chain.log| {
        EntryStays(s, s', p);
      } else if s.chain.pool[s.chain.next].Ours? {
        assert Logged(s', s.chain.pool[s.chain.next].tx, p);
      }
    }
  }

  lemma MineReceipts(s: Sys, success: bool, s': Sys)
    requires ChainOk(s) && Mine(s, success, s')
    ensures ReceiptsOk(s')
  {
    assert PoolOk(s, s.chain.next);
    forall t | t in s'.chain.receipts
      ensures ReceiptOk(s', t)
    {
      if s.chain.pool[s.chain.next] != Ours(t) {
        ReceiptStays(s, s', t);
      } else if success {
        assert Logged(s', t, |s.chain.log|);
      }
    }
  }

  lemma MineOrder(s: Sys, success: bool, s': Sys)
    requires ChainOk(s) && Mine(s, success, s')
    ensures NonceOrder(s')
  {
    assert PoolOk(s, s.chain.next);
    forall p | 0 <= p < |s.chain.log| && s.chain.log[p].source.Some?
      ensures s.chain.log[p].source.value < |s.txs| && s.txs[s.chain.log[p].source.value].nonce < s.chain.next
    {
      assert EntryOk(s, p);
      assert ReceiptOk(s, s.chain.log[p].source.value);
    }
  }

  lemma MinePools(s: Sys, success: bool, s': Sys)
    requires ChainOk(s) && Mine(s, success, s')
    ensures ObservedOk(s') && PoolsOk(s')
  {
    assert PoolOk(s, s.chain.next);
    assert forall n :: n in s'.chain.pool ==> PoolOk(s, n);
    assert forall t :: t in s.chain.receipts ==> ReceiptOk(s, t);
  }

  lemma MineChain(s: Sys, success: bool, s': Sys)
    requires ChainOk(s) && Mine(s, success, s')
    ensures ChainOk(s')
  {
    MineEntries(s, success, s');
    MineReceipts(s, success, s');
    MineOrder(s, success, s');
    MinePools(s, success, s');
  }

  /** The step leaves the chain, the transactions and the observed reverts alone. */
  ghost predicate OffChain(s: Sys, s': Sys) {
    s'.chain == s.chain && s'.txs == s.txs && s'.observed == s.observed
  }

  lemma WriteOffChain(env: Env, s: Sys, e: Event, s': Sys)
    requires e.Writes() && WriteNext(env, s, e, s')
    ensures OffChain(s, s')
  {
  }

  lemma QueueOffChain(s: Sys, e: Event, s': Sys)
    requires e.Queues() && QueueNext(s, e, s')
    ensures OffChain(s, s')
  {
  }

  lemma LookOffChain(env: Env, s: Sys, e: Event, s': Sys)
    requires e.Looks() && LookNext(env, s, e, s')
    ensures OffChain(s, s')
  {
  }

  /** Only the chain itself and a worker's calls bear on the chain. */
  lemma OthersOffChain(env: Env, s: Sys, e: Event, s': Sys)
    requires Next(env, s, e, s') && !e.OfChain() && !e.Calls()
    ensures OffChain(s, s')
  {
    if e.Writes() {
      WriteOffChain(env, s, e, s');
    } else if e.Queues() {
      QueueOffChain(s, e, s');
    } else {
      LookOffChain(env, s, e, s');
    }
  }

  /** Of a worker's calls only `Send` reaches the chain, and only `Prepare` makes a transaction. */
  lemma CallOffChain(env: Env, s: Sys, e: Event, s': Sys)
    requires e.Calls() && CallNext(env, s, e, s')
    ensures !e.SendEv? ==> s'.chain == s.chain
    ensures s.txs <= s'.txs && (!e.PrepareEv? ==> s'.txs == s.txs)
    ensures !e.WaitEv? ==> s'.observed == s.observed
  {
  }

  /** Only a revert a receipt shows is ever recorded as observed. */
  lemma WaitObserves(s: Sys, id: Digest, outcome: WaitOutcome, s': Sys)
    requires ObservedOk(s) && Wait(s, id, outcome, s')
    ensures ObservedOk(s')
  {
  }

  lemma OffChainKeeps(s: Sys, s': Sys)
    requires ChainOk(s) && s'.chain == s.chain && s.txs <= s'.txs && ObservedOk(s')
    ensures ChainOk(s')
  {
    UnminedKeeps(s, s');
    assert forall n :: n in s.chain.pool ==> PoolOk(s, n);
  }

  lemma CallChain(env: Env, s: Sys, e: Event, s': Sys)
    requires Inv(env, s) && e.Calls() && CallNext(env, s, e, s')
    ensures ChainOk(s')
  {
    CallOffChain(env, s, e, s');
    if e.SendEv? {
      assert WorkOk(env, s, e.id);
      SendChain(env, s, e.id, e.sent, s');
    } else {
      if e.WaitEv? {
        WaitObserves(s, e.id, e.waited, s');
      }
      OffChainKeeps(s, s');
    }
  }

  lemma ChainStep(env: Env, s: Sys, e: Event, s': Sys)
    requires Inv(env, s) && Next(env, s, e, s')
    ensures ChainOk(s')
  {
    if e.MineEv? {
      MineChain(s, e.success, s');
    } else if e.OfChain() {
      PoolChain(s, e, s');
    } else if e.Calls() {
      CallChain(env, s, e, s');
    } else {
      OthersOffChain(env, s, e, s');
      OffChainKeeps(s, s');
    }
  }

  // ---------- whole runs ----------

  lemma FreshInv(env: Env, s: Sys)
    requires Fresh(s)
    ensures Inv(env, s)
  {
  }

  lemma InvStep(env: Env, s: Sys, e: Event, s': Sys)
    requires Inv(env, s) && Next(env, s, e, s')
    ensures Inv(env, s')
  {
    CoreStep(env, s, e, s');
    ChainStep(env, s, e, s');
  }

  /** The invariant holds in every state of every run. */
  lemma {:induction false} InvAt(env: Env, states: seq<Sys>, events: seq<Event>, k: nat)
    requires Run(env, states, events) && k < |states|
    ensures Inv(env, states[k])
  {
    if k == 0 {
      FreshInv(env, states[0]);
    } else {
      InvAt(env, states, events, k - 1);
      assert Next(env, states[k - 1], events[k - 1], states[k]);
      InvStep(env, states[k - 1], events[k - 1], states[k]);
    }
  }
}
