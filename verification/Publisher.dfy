/**
  The mutex-guarded memory of `PublisherV2`: every critical section of
  internal/publisher/publisher_v2.go, as a function on the guarded state and as the
  method of a class that performs it in place.
 */
module PublisherState {
  import opened Types

  /** A prepared transaction is an opaque handle to the publisher: the position at which it was prepared. */
  type TxRef = nat

  /** `number` is the source's `seq`; 0 marks a state nothing was desired for. */
  datatype WorkloadState = WorkloadState(
    desired: Desired,
    number: nat,
    key: RevisionKey,
    signature: Option<Bytes>,
    prepared: Option<TxRef>,
    confirmed: Option<RevisionKey>)

  const Unset: WorkloadState :=
    WorkloadState(
      Desired(Identity([], [], [], [], []), VersionUnknown, ZeroDigest, []),
      0,
      RevisionKey(VersionUnknown, ZeroDigest, ZeroDigest, ZeroDigest),
      None, None, None)

  datatype Memory = Memory(state: map<Digest, WorkloadState>, counter: nat)

  const EmptyMemory := Memory(map[], 0)

  /** The critical section of `Enqueue`; the flag says whether `queue.Add` follows. */
  function EnqueueLocked(m: Memory, id: Digest, d: Desired, key: RevisionKey): (Memory, bool) {
    var st := if id in m.state then m.state[id] else Unset;
    if st.confirmed == Some(key) then
      (m, false)
    else if st.number != 0 && st.key == key then
      (m, true)
    else
      var n := m.counter + 1;
      (Memory(m.state[id := WorkloadState(d, n, key, None, None, st.confirmed)], n), true)
  }

  /** The copy of the workload a worker acts on, or nothing when there is no work. */
  function SnapshotLocked(m: Memory, id: Digest): Option<WorkloadState> {
    if id !in m.state || m.state[id].number == 0 then None
    else if m.state[id].confirmed == Some(m.state[id].key) then None
    else Some(m.state[id])
  }

  /** The tail of `prepareOnce`: keep the signature and the transaction if the revision is still current. */
  function InstallLocked(m: Memory, id: Digest, rev: WorkloadState, sig: Bytes, tx: TxRef): Memory {
    if id in m.state && m.state[id].number == rev.number then
      m.(state := m.state[id := m.state[id].(signature := Some(sig), prepared := Some(tx))])
    else
      m
  }

  /** `confirm`; the flag says whether something newer is waiting. */
  function ConfirmLocked(m: Memory, id: Digest, rev: WorkloadState): (Memory, bool) {
    if id !in m.state then
      (m, false)
    else
      var st := m.state[id].(confirmed := Some(rev.key));
      if st.number != rev.number then
        (m.(state := m.state[id := st]), true)
      else
        (m.(state := m.state[id := st.(prepared := None)]), false)
  }

  function DiscardLocked(m: Memory, id: Digest, number: nat): Memory {
    if id in m.state && m.state[id].number == number then
      m.(state := m.state[id := m.state[id].(prepared := None)])
    else
      m
  }

  /** The publisher's guarded fields, updated in place one critical section at a time. */
  class PublisherV2 {
    var state: map<Digest, WorkloadState>
    var counter: nat

    ghost function Contents(): Memory
      reads this
    {
      Memory(state, counter)
    }

    constructor ()
      ensures Contents() == EmptyMemory
    {
      state, counter := map[], 0;
    }

    method Enqueue(id: Digest, d: Desired, key: RevisionKey) returns (add: bool)
      modifies this
      ensures (Contents(), add) == EnqueueLocked(old(Contents()), id, d, key)
      // Only a key already seen on chain is not added to the queue.
      ensures add <==> !(id in old(state) && old(state)[id].confirmed == Some(key))
      // Nothing changes for it, nor for the key already desired ...
      ensures !add || (id in old(state) && old(state)[id].number != 0 && old(state)[id].key == key) ==>
                state == old(state) && counter == old(counter)
      // ... and any other key becomes the desired one under a new number, with no attempt.
      ensures add && !(id in old(state) && old(state)[id].number != 0 && old(state)[id].key == key) ==>
                && counter == old(counter) + 1 && id in state && state - {id} == old(state) - {id}
                && state[id].desired == d && state[id].number == counter && state[id].key == key
                && state[id].signature.None? && state[id].prepared.None?
                && state[id].confirmed == (if id in old(state) then old(state)[id].confirmed else None)
    {
      var st := Unset;
      if id in state {
        st := state[id];
      }
      if st.confirmed == Some(key) {
        return false;
      }
      if st.number != 0 && st.key == key {
        return true;
      }
      counter := counter + 1;
      st := st.(desired := d, number := counter, key := key);
      st := st.(signature := None, prepared := None);
      state := state[id := st];
      return true;
    }

    method Snapshot(id: Digest) returns (rev: Option<WorkloadState>)
      ensures rev == SnapshotLocked(Contents(), id)
      ensures rev.Some? <==> id in state && state[id].number != 0 && state[id].confirmed != Some(state[id].key)
      ensures rev.Some? ==> rev.value == state[id]
    {
      if id !in state || state[id].number == 0 {
        return None;
      }
      if state[id].confirmed == Some(state[id].key) {
        return None;
      }
      return Some(state[id]);
    }

    method Install(id: Digest, rev: WorkloadState, sig: Bytes, tx: TxRef)
      modifies this
      ensures Contents() == InstallLocked(old(Contents()), id, rev, sig, tx)
      ensures counter == old(counter) && state.Keys == old(state).Keys && state - {id} == old(state) - {id}
      ensures id in state ==>
                var st, was := state[id], old(state)[id];
                if was.number == rev.number then
                  && st.signature == Some(sig) && st.prepared == Some(tx)
                  && st.desired == was.desired && st.number == was.number && st.key == was.key && st.confirmed == was.confirmed
                else
                  st == was
    {
      if id in state && state[id].number == rev.number {
        var st := state[id].(signature := Some(sig));
        st := st.(prepared := Some(tx));
        state := state[id := st];
      }
    }

    method Confirm(id: Digest, rev: WorkloadState) returns (again: bool)
      modifies this
      ensures (Contents(), again) == ConfirmLocked(old(Contents()), id, rev)
      ensures counter == old(counter) && state.Keys == old(state).Keys && state - {id} == old(state) - {id}
      ensures again <==> id in state && state[id].number != rev.number
      ensures id in state ==>
                var st, was := state[id], old(state)[id];
                && st.confirmed == Some(rev.key) && st.signature == was.signature
                && st.desired == was.desired && st.number == was.number && st.key == was.key
                && st.prepared == (if was.number == rev.number then None else was.prepared)
    {
      if id !in state {
        return false;
      }
      var st := state[id].(confirmed := Some(rev.key));
      if st.number != rev.number {
        state := state[id := st];
        return true;
      }
      st := st.(prepared := None);
      state := state[id := st];
      return false;
    }

    method DiscardAttempt(id: Digest, number: nat)
      modifies this
      ensures Contents() == DiscardLocked(old(Contents()), id, number)
      ensures counter == old(counter) && state.Keys == old(state).Keys && state - {id} == old(state) - {id}
      ensures id in state ==>
                var st, was := state[id], old(state)[id];
                && st.prepared == (if was.number == number then None else was.prepared) && st.signature == was.signature
                && st.desired == was.desired && st.number == was.number && st.key == was.key && st.confirmed == was.confirmed
    {
      if id in state && state[id].number == number {
        state := state[id := state[id].(prepared := None)];
      }
    }
  }
}
