/** The log of a delivery run is a log of the contract, so what the protocol reads is the contract's storage. */
module DeliveryRegistry {
  import opened Types
  import opened Delivery
  import opened DeliveryRequests
  import Registry

  /** The `publish` call behind a record. */
  function CallOf(publisher: Registry.Address, e: Entry): Registry.Call {
    Registry.Call(publisher, e.id, e.key.version, e.key.configHash, e.key.incarnation, e.sig, e.key.fingerprint, 0)
  }

  function CallsOf(publisher: Registry.Address, log: seq<Entry>): (r: seq<Registry.Call>)
    ensures |r| == |log| && forall p :: 0 <= p < |log| ==> r[p] == CallOf(publisher, log[p])
  {
    seq(|log|, p requires 0 <= p < |log| => CallOf(publisher, log[p]))
  }

  /** The contract accepts the calls and logs the records again. */
  lemma {:induction false} CallsRebuild(publisher: Registry.Address, log: seq<Entry>)
    requires AllPublishable(log)
    ensures Registry.EntriesOf(Registry.After(publisher, CallsOf(publisher, log)).log) == AnonymousLog(log)
  {
    if log != [] {
      var n := |log| - 1;
      var calls := CallsOf(publisher, log);
      CallsRebuild(publisher, log[..n]);
      assert calls[..n] == CallsOf(publisher, log[..n]);
      LoggedCall(publisher, Registry.After(publisher, calls[..n]), log[n]);
      assert AnonymousLog(log) == AnonymousLog(log[..n]) + [Anonymous(log[n])];
    }
  }

  lemma LoggedCall(publisher: Registry.Address, s: Registry.Storage, e: Entry)
    requires Publishable(e.key, e.sig)
    ensures Registry.EntriesOf(Registry.Publish(publisher, s, CallOf(publisher, e)).log)
         == Registry.EntriesOf(s.log) + [Anonymous(e)]
  {
  }

  /**
    For every state of every run there are calls of the contract that leave exactly the run's log; and the
    record the protocol reads for a workload is the one the contract's storage then holds.
   */
  lemma RunsOnContract(env: Env, states: seq<Sys>, events: seq<Event>, k: nat, publisher: Registry.Address, id: Digest)
    returns (calls: seq<Registry.Call>)
    requires Run(env, states, events) && k < |states|
    ensures Registry.EntriesOf(Registry.After(publisher, calls).log) == AnonymousLog(states[k].chain.log)
    ensures
      var latest := LatestOf(states[k].chain.log, id);
      Registry.OnChain(Registry.Read(Registry.After(publisher, calls), id), id)
      == if latest.Some? then Some(Anonymous(latest.value)) else None
  {
    PublishableAt(env, states, events, k);
    calls := CallsOf(publisher, states[k].chain.log);
    CallsRebuild(publisher, states[k].chain.log);
    Registry.ProtocolReadsStorage(publisher, calls, id);
    LatestAnonymous(states[k].chain.log, id);
  }
}
