/** What becomes of the latest request for a workload, and of a workload already published before a restart. */
module DeliveryRequests {
  import opened Types
  import opened PublisherState
  import opened Delivery
  import opened DeliveryInvariants
  import opened DeliverySteps
  import opened DeliveryTheorems
  import opened DeliveryOrder

  // ---------- the desired revision is the last one asked for ----------

  /** The request names the confirmed key while another is desired: `Enqueue` drops it and keeps the other. */
  ghost predicate Shadowed(s: Sys, id: Digest, key: RevisionKey) {
    id in s.mem.state && s.mem.state[id].confirmed == Some(key) && s.mem.state[id].key != key
  }

  lemma RequestStep(env: Env, s: Sys, d: Desired, s': Sys, id: Digest)
    requires Inv(env, s) && Enqueue(env, s, d, s') && env.idOf(d) == Some(id)
    ensures id in s'.mem.state && (s'.mem.state[id].key == env.keyOf(d) <==> !Shadowed(s, id, env.keyOf(d)))
  {
    if id in s.mem.state {
      assert MemOk(env, s, id);
    }
  }

  lemma KeyKept(env: Env, s: Sys, e: Event, s': Sys, id: Digest)
    requires Next(env, s, e, s') && id in s.mem.state && !(e.EnqueueEv? && env.idOf(e.d) == Some(id))
    ensures id in s'.mem.state && s'.mem.state[id].key == s.mem.state[id].key
    ensures s'.mem.state[id].desired == s.mem.state[id].desired
  {
    if !e.Writes() {
      MemoryKept(env, s, e, s');
    }
  }

  lemma {:induction false} KeyStays(env: Env, states: seq<Sys>, events: seq<Event>, id: Digest, from: nat, to: nat)
    requires Steps(env, states, events) && from <= to < |states| && id in states[from].mem.state
    requires forall j :: from <= j < to && events[j].EnqueueEv? ==> env.idOf(events[j].d) != Some(id)
    ensures id in states[to].mem.state && states[to].mem.state[id].key == states[from].mem.state[id].key
    ensures states[to].mem.state[id].desired == states[from].mem.state[id].desired
  {
    if from < to {
      KeyStays(env, states, events, id, from, to - 1);
      assert Next(env, states[to - 1], events[to - 1], states[to]);
      KeyKept(env, states[to - 1], events[to - 1], states[to], id);
    }
  }

  /**
    After the last request for a workload, its desired key is the requested one exactly when that
    request did not name the confirmed key while another was desired.
   */
  lemma LastRequestWins(env: Env, states: seq<Sys>, events: seq<Event>, k: nat, d: Desired, id: Digest)
    requires Run(env, states, events) && k < |events| && events[k] == EnqueueEv(d) && env.idOf(d) == Some(id)
    requires forall j :: k < j < |events| && events[j].EnqueueEv? ==> env.idOf(events[j].d) != Some(id)
    ensures
      var final := states[|events|];
      && id in final.mem.state
      && (final.mem.state[id].key == env.keyOf(d) <==> !Shadowed(states[k], id, env.keyOf(d)))
  {
    InvAt(env, states, events, k);
    assert Next(env, states[k], events[k], states[k + 1]);
    RequestStep(env, states[k], d, states[k + 1], id);
    KeyStays(env, states, events, id, k + 1, |events|);
  }

  // ---------- restart ----------

  /** The slot holds our valid record for `d`. */
  ghost predicate SlotIs(env: Env, s: Sys, id: Digest, d: Desired) {
    var latest := LatestOf(s.chain.log, id);
    latest.Some? && latest.value.key == env.keyOf(d) && env.Authentic(d, latest.value.sig)
  }

  predicate Costs(e: Event, id: Digest) {
    (e.SignEv? || e.PrepareEv? || e.SendEv?) && e.id == id
  }

  ghost predicate MemoryKnows(env: Env, s: Sys, id: Digest, d: Desired) {
    id in s.mem.state ==> s.mem.state[id].desired == d && s.mem.state[id].key == env.keyOf(d)
  }

  /** The worker has not passed the first query, and is there for `d`. */
  ghost predicate WorkerReads(env: Env, s: Sys, id: Digest, d: Desired) {
    id in s.workers && s.workers[id].HasRev() ==>
      && (s.workers[id].Reading? || s.workers[id].Confirming?)
      && s.workers[id].rev.desired == d && s.workers[id].rev.key == env.keyOf(d)
  }

  lemma KnowsStep(env: Env, s: Sys, e: Event, s': Sys, id: Digest, d: Desired)
    requires Next(env, s, e, s') && MemoryKnows(env, s, id, d)
    requires e.EnqueueEv? && env.idOf(e.d) == Some(id) ==> e.d == d
    ensures MemoryKnows(env, s', id, d)
  {
    if !e.Writes() {
      MemoryKept(env, s, e, s');
    }
  }

  lemma ReadsLook(env: Env, s: Sys, e: Event, s': Sys, id: Digest, d: Desired)
    requires e.Looks() && LookNext(env, s, e, s') && e.id == id
    requires MemoryKnows(env, s, id, d) && WorkerReads(env, s, id, d) && SlotIs(env, s, id, d)
    ensures WorkerReads(env, s', id, d)
  {
  }

  lemma ReadsQueue(env: Env, s: Sys, e: Event, s': Sys, id: Digest, d: Desired)
    requires e.Queues() && QueueNext(s, e, s') && WorkerReads(env, s, id, d)
    ensures WorkerReads(env, s', id, d)
  {
  }

  lemma ReadsWrite(env: Env, s: Sys, e: Event, s': Sys, id: Digest, d: Desired)
    requires e.Writes() && WriteNext(env, s, e, s') && WorkerReads(env, s, id, d)
    ensures WorkerReads(env, s', id, d)
  {
  }

  lemma ReadsNoCall(env: Env, s: Sys, e: Event, s': Sys, id: Digest, d: Desired)
    requires e.Calls() && CallNext(env, s, e, s') && WorkerReads(env, s, id, d)
    ensures e.id != id
  {
  }

  lemma ReadsStep(env: Env, s: Sys, e: Event, s': Sys, id: Digest, d: Desired)
    requires Next(env, s, e, s') && MemoryKnows(env, s, id, d) && WorkerReads(env, s, id, d) && SlotIs(env, s, id, d)
    ensures WorkerReads(env, s', id, d) && !Costs(e, id)
  {
    if e.Calls() {
      ReadsNoCall(env, s, e, s', id, d);
    }
    if !ActsOn(e, id) {
      WorkerKept(env, s, e, s', id);
    } else if e.Looks() {
      ReadsLook(env, s, e, s', id, d);
    } else if e.Queues() {
      ReadsQueue(env, s, e, s', id, d);
    } else {
      ReadsWrite(env, s, e, s', id, d);
    }
  }

  /** No transaction of the workload was ever prepared. */
  ghost predicate NoTx(s: Sys, id: Digest) {
    forall i :: 0 <= i < |s.txs| ==> s.txs[i].id != id
  }

  lemma NoTxStep(env: Env, s: Sys, e: Event, s': Sys, id: Digest)
    requires Next(env, s, e, s') && NoTx(s, id) && !Costs(e, id)
    ensures NoTx(s', id)
  {
    if e.Calls() {
      CallOffChain(env, s, e, s');
    } else if !e.OfChain() {
      OthersOffChain(env, s, e, s');
    }
  }

  /** Without a transaction of ours or a foreign record for it, the slot keeps what it holds. */
  lemma SlotMine(env: Env, s: Sys, success: bool, s': Sys, id: Digest, d: Desired)
    requires PoolsOk(s) && Mine(s, success, s') && Undisturbed(s, MineEv(success), id)
    requires NoTx(s, id) && SlotIs(env, s, id, d)
    ensures SlotIs(env, s', id, d)
  {
    assert PoolOk(s, s.chain.next);
    if |s'.chain.log| > |s.chain.log| {
      LatestAfter(s.chain.log, s'.chain.log[|s.chain.log|], id);
    }
  }

  lemma SlotStep(env: Env, s: Sys, e: Event, s': Sys, id: Digest, d: Desired)
    requires PoolsOk(s) && Next(env, s, e, s') && Undisturbed(s, e, id)
    requires NoTx(s, id) && SlotIs(env, s, id, d)
    ensures SlotIs(env, s', id, d)
  {
    if e.MineEv? {
      SlotMine(env, s, e.success, s', id, d);
    } else {
      UnminedStep(env, s, e, s');
    }
  }

  /** The step asks for nothing but `d`, and nobody else writes the slot in it. */
  ghost predicate QuietStep(env: Env, s: Sys, e: Event, id: Digest, d: Desired) {
    (e.EnqueueEv? && env.idOf(e.d) == Some(id) ==> e.d == d) && Undisturbed(s, e, id)
  }

  ghost predicate Quiet(env: Env, states: seq<Sys>, events: seq<Event>, id: Digest, d: Desired)
    requires |states| == |events| + 1
  {
    forall j {:trigger events[j]} :: 0 <= j < |events| ==> QuietStep(env, states[j], events[j], id, d)
  }

  /** Memory and the worker know only `d`, the slot holds it, and no transaction was made for the workload. */
  ghost predicate OnlyReads(env: Env, s: Sys, id: Digest, d: Desired) {
    MemoryKnows(env, s, id, d) && WorkerReads(env, s, id, d) && SlotIs(env, s, id, d) && NoTx(s, id)
  }

  lemma OnlyReadsStep(env: Env, s: Sys, e: Event, s': Sys, id: Digest, d: Desired)
    requires PoolsOk(s) && OnlyReads(env, s, id, d) && Next(env, s, e, s') && QuietStep(env, s, e, id, d)
    ensures OnlyReads(env, s', id, d) && !Costs(e, id)
  {
    KnowsStep(env, s, e, s', id, d);
    ReadsStep(env, s, e, s', id, d);
    NoTxStep(env, s, e, s', id);
    SlotStep(env, s, e, s', id, d);
  }

  lemma OnlyReadsFresh(env: Env, s: Sys, id: Digest, d: Desired)
    requires Fresh(s) && SlotIs(env, s, id, d)
    ensures OnlyReads(env, s, id, d)
  {
  }

  lemma {:induction false} OnlyReadsAt(env: Env, states: seq<Sys>, events: seq<Event>, id: Digest, d: Desired, k: nat)
    requires Run(env, states, events) && k < |states| && Quiet(env, states, events, id, d)
    requires SlotIs(env, states[0], id, d)
    ensures OnlyReads(env, states[k], id, d)
  {
    if k == 0 {
      OnlyReadsFresh(env, states[0], id, d);
    } else {
      OnlyReadsAt(env, states, events, id, d, k - 1);
      OnlyReadsNext(env, states, events, id, d, k - 1);
    }
  }

  lemma OnlyReadsNext(env: Env, states: seq<Sys>, events: seq<Event>, id: Digest, d: Desired, k: nat)
    requires Run(env, states, events) && k < |events| && Quiet(env, states, events, id, d)
    requires OnlyReads(env, states[k], id, d)
    ensures OnlyReads(env, states[k + 1], id, d) && !Costs(events[k], id)
  {
    InvAt(env, states, events, k);
    assert Next(env, states[k], events[k], states[k + 1]);
    OnlyReadsStep(env, states[k], events[k], states[k + 1], id, d);
  }

  /**
    A process that starts with no memory while the slot holds our valid record for `d`, and is asked for
    nothing but `d` while nobody else writes the slot, never signs, prepares or sends for that workload,
    and the slot keeps the record.
   */
  lemma RestartIsFree(env: Env, states: seq<Sys>, events: seq<Event>, id: Digest, d: Desired, k: nat)
    requires Run(env, states, events) && k < |events| && Quiet(env, states, events, id, d)
    requires SlotIs(env, states[0], id, d)
    ensures !Costs(events[k], id) && SlotIs(env, states[k + 1], id, d)
  {
    OnlyReadsAt(env, states, events, id, d, k);
    OnlyReadsNext(env, states, events, id, d, k);
  }

  // ---------- from one process to the next ----------

  /** A record no longer remembered as this process's. */
  function Anonymous(e: Entry): Entry {
    e.(source := None)
  }

  function AnonymousLog(log: seq<Entry>): (r: seq<Entry>)
    ensures |r| == |log| && forall k :: 0 <= k < |log| ==> r[k] == Anonymous(log[k])
  {
    seq(|log|, k requires 0 <= k < |log| => Anonymous(log[k]))
  }

  /** What a pool transaction will write, whoever made it. */
  function AnonymousTx(s: Sys, t: PoolTx): PoolTx {
    match t
    case Ours(tx) =>
      if tx < |s.txs| then Theirs(Some(Entry(s.txs[tx].id, s.txs[tx].key, s.txs[tx].sig, None))) else Theirs(None)
    case Theirs(_) => t
  }

  /** The process is gone with all its memory; the chain goes on, with what was already pooled. */
  function Restarted(s: Sys): Sys {
    Sys(EmptyMemory, {}, {}, multiset{}, map[],
        Chain(s.chain.next, map n | n in s.chain.pool :: AnonymousTx(s, s.chain.pool[n]), {}, map[], AnonymousLog(s.chain.log)),
        [], [], {}, multiset{})
  }

  /** The chain is as it was, and each pooled transaction still writes what it would have written. */
  ghost predicate ChainGoesOn(s: Sys, s': Sys) {
    && s'.chain.next == s.chain.next && |s'.chain.log| == |s.chain.log| && s'.chain.pool.Keys == s.chain.pool.Keys
    && (forall p :: 0 <= p < |s.chain.log| ==>
          && s'.chain.log[p].id == s.chain.log[p].id && s'.chain.log[p].key == s.chain.log[p].key
          && s'.chain.log[p].sig == s.chain.log[p].sig)
    && (forall n :: n in s.chain.pool && s.chain.pool[n].Ours? && s.chain.pool[n].tx < |s.txs| ==>
          var tx := s.txs[s.chain.pool[n].tx];
          s'.chain.pool[n] == Theirs(Some(Entry(tx.id, tx.key, tx.sig, None))))
    && (forall n :: n in s.chain.pool && s.chain.pool[n].Theirs? ==> s'.chain.pool[n] == s.chain.pool[n])
  }

  lemma {:induction false} LatestAnonymous(log: seq<Entry>, id: Digest)
    ensures LatestOf(AnonymousLog(log), id)
         == if LatestOf(log, id).Some? then Some(Anonymous(LatestOf(log, id).value)) else None
  {
    if log != [] {
      assert AnonymousLog(log)[..|log| - 1] == AnonymousLog(log[..|log| - 1]);
      LatestAnonymous(log[..|log| - 1], id);
    }
  }

  lemma PublishableMine(s: Sys, success: bool, s': Sys)
    requires Mine(s, success, s') && AllPublishable(s.chain.log)
    ensures AllPublishable(s'.chain.log)
  {
  }

  lemma {:induction false} PublishableAt(env: Env, states: seq<Sys>, events: seq<Event>, k: nat)
    requires Run(env, states, events) && k < |states|
    ensures AllPublishable(states[k].chain.log)
  {
    if k != 0 {
      PublishableAt(env, states, events, k - 1);
      assert Next(env, states[k - 1], events[k - 1], states[k]);
      if events[k - 1].MineEv? {
        PublishableMine(states[k - 1], events[k - 1].success, states[k]);
      } else {
        UnminedStep(env, states[k - 1], events[k - 1], states[k]);
      }
    }
  }

  /** A restart begins a run of the next process, and our valid record in a slot is still there for it. */
  lemma RestartBegins(env: Env, states: seq<Sys>, events: seq<Event>, k: nat, id: Digest, d: Desired)
    requires Run(env, states, events) && k < |states|
    ensures Fresh(Restarted(states[k]))
    ensures ChainGoesOn(states[k], Restarted(states[k]))
    ensures SlotIs(env, states[k], id, d) <==> SlotIs(env, Restarted(states[k]), id, d)
  {
    InvAt(env, states, events, k);
    PublishableAt(env, states, events, k);
    LatestAnonymous(states[k].chain.log, id);
    RestartedChain(states[k]);
    RestartedFresh(states[k]);
  }

  lemma RestartedFresh(s: Sys)
    requires PoolsOk(s) && AllPublishable(s.chain.log)
    ensures Fresh(Restarted(s))
  {
    assert forall n :: n in s.chain.pool ==> PoolOk(s, n);
  }

  lemma RestartedChain(s: Sys)
    ensures ChainGoesOn(s, Restarted(s))
  {
  }
}
