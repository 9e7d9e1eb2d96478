/** `net::RingPoller`, `net::UringResSetter` and `dispatch` (ring2/ring2/poller.h, poller.cc). */
module Pollers {
  import opened Options
  import opened Errno
  import opened Rings

  const NOT_SET: int := -ENOCQE

  /** `should_wake`: unset, or the closure that asks whether both setters hold a result. */
  datatype ShouldWake = Always | BothSet(op: SetterId, timeout: SetterId)
  datatype Setter = Setter(fiber: nat, res: int, wake: ShouldWake)
  type Setters = map<SetterId, Setter>

  /** The setter and those its closure refers to still exist. */
  predicate Live(setters: Setters, id: SetterId) {
    && id in setters
    && (setters[id].wake.BothSet? ==> setters[id].wake.op in setters && setters[id].wake.timeout in setters)
  }

  function ResultOf(setters: Setters, id: SetterId): int {
    if id in setters then setters[id].res else NOT_SET
  }

  function Store(setters: Setters, cqe: Cqe): Setters {
    if cqe.data in setters then setters[cqe.data := setters[cqe.data].(res := cqe.res)] else setters
  }

  predicate Wakes(setters: Setters, id: SetterId) {
    && id in setters
    && match setters[id].wake
       case Always => true
       case BothSet(op, timeout) => ResultOf(setters, op) != NOT_SET && ResultOf(setters, timeout) != NOT_SET
  }

  /** The fiber that `dispatch` hands to the scheduler, if any, after storing the result. */
  function WokenBy(setters: Setters, cqe: Cqe): Option<nat> {
    var stored := Store(setters, cqe);
    if Wakes(stored, cqe.data) then Some(stored[cqe.data].fiber) else None
  }

  ghost predicate AllLive(setters: Setters, batch: seq<Cqe>) {
    forall c :: c in batch ==> Live(setters, c.data)
  }

  /** The setters after a batch was dispatched in order. */
  function StoreAll(setters: Setters, batch: seq<Cqe>): Setters {
    if batch == [] then setters
    else Store(StoreAll(setters, batch[..|batch| - 1]), batch[|batch| - 1])
  }

  /** What the dispatches yielded. */
  function WokenByAll(setters: Setters, batch: seq<Cqe>): (woken: seq<Option<nat>>)
    ensures |woken| == |batch|
  {
    if batch == [] then []
    else
      var n := |batch| - 1;
      WokenByAll(setters, batch[..n]) + [WokenBy(StoreAll(setters, batch[..n]), batch[n])]
  }

  lemma BatchNext(setters: Setters, batch: seq<Cqe>, i: nat)
    requires i < |batch|
    ensures StoreAll(setters, batch[..i + 1]) == Store(StoreAll(setters, batch[..i]), batch[i])
    ensures WokenByAll(setters, batch[..i + 1]) ==
            WokenByAll(setters, batch[..i]) + [WokenBy(StoreAll(setters, batch[..i]), batch[i])]
  {
    assert batch[..i + 1][..i] == batch[..i];
  }

  lemma {:induction false} WokenAt(setters: Setters, batch: seq<Cqe>, h: nat)
    requires h < |batch|
    ensures WokenByAll(setters, batch)[h] == WokenBy(StoreAll(setters, batch[..h]), batch[h])
    decreases |batch|
  {
    var n := |batch| - 1;
    if h < n {
      WokenAt(setters, batch[..n], h);
      assert batch[..n][..h] == batch[..h];
    }
  }

  /** Dispatching changes results only. */
  lemma {:induction false} StoreAllKeeps(setters: Setters, batch: seq<Cqe>, id: SetterId)
    ensures id in StoreAll(setters, batch) <==> id in setters
    ensures id in setters ==> StoreAll(setters, batch)[id] == setters[id].(res := StoreAll(setters, batch)[id].res)
    ensures Live(StoreAll(setters, batch), id) <==> Live(setters, id)
    decreases |batch|
  {
    if batch != [] {
      var before := batch[..|batch| - 1];
      StoreAllKeeps(setters, before, id);
      if id in setters && setters[id].wake.BothSet? {
        StoreAllKeeps(setters, before, setters[id].wake.op);
        StoreAllKeeps(setters, before, setters[id].wake.timeout);
      }
    }
  }

  class UringResSetter {
    const id: SetterId
    const fiber: nat
    var res: int
    var shouldWake: ShouldWake

    constructor (id: SetterId, runningFiber: nat, initRes: int)
      ensures this.id == id && fiber == runningFiber && res == initRes && shouldWake == Always
    {
      this.id, fiber, res, shouldWake := id, runningFiber, initRes, Always;
    }
  }

  /** What the addresses in `user_data` point at. */
  type Memory = map<SetterId, UringResSetter>

  ghost predicate Addressed(memory: Memory) {
    forall id :: id in memory ==> memory[id].id == id
  }

  ghost function Deref(memory: Memory): Setters
    reads memory.Values
  {
    map id | id in memory :: Setter(memory[id].fiber, memory[id].res, memory[id].shouldWake)
  }

  method CheckShouldWake(memory: Memory, setter: UringResSetter) returns (wakes: bool)
    requires Addressed(memory) && setter.id in memory && memory[setter.id] == setter
    requires Live(Deref(memory), setter.id)
    ensures wakes == Wakes(Deref(memory), setter.id)
  {
    match setter.shouldWake
    case Always => wakes := true;
    case BothSet(op, timeout) => wakes := memory[op].res != NOT_SET && memory[timeout].res != NOT_SET;
  }

  method DispatchCqe(memory: Memory, cqe: Cqe) returns (woken: Option<nat>)
    requires Addressed(memory) && Live(Deref(memory), cqe.data)
    modifies memory.Values`res
    ensures Deref(memory) == Store(old(Deref(memory)), cqe)
    ensures woken == WokenBy(old(Deref(memory)), cqe)
  {
    var setter := memory[cqe.data];
    setter.res := cqe.res;
    ghost var stored := Store(old(Deref(memory)), cqe);
    assert Deref(memory) == stored;
    var wakes := CheckShouldWake(memory, setter);
    assert wakes == Wakes(stored, cqe.data);
    assert setter.fiber == stored[cqe.data].fiber;
    woken := if wakes then Some(setter.fiber) else None;
  }

  /** One turn of the loop of `TryPollMany`. */
  method DispatchNext(memory: Memory, usefuls: seq<Cqe>, i: nat, fibers: array<Option<nat>>, ghost setters: Setters)
    requires Addressed(memory) && i < |usefuls| <= fibers.Length && AllLive(setters, usefuls)
    requires Deref(memory) == StoreAll(setters, usefuls[..i])
    modifies fibers, memory.Values`res
    ensures Deref(memory) == StoreAll(setters, usefuls[..i + 1])
    ensures fibers[i] == WokenByAll(setters, usefuls)[i]
    ensures forall h :: 0 <= h < fibers.Length && h != i ==> fibers[h] == old(fibers[h])
  {
    BatchNext(setters, usefuls, i);
    WokenAt(setters, usefuls, i);
    StoreAllKeeps(setters, usefuls[..i], usefuls[i].data);
    assert usefuls[i] in usefuls;
    fibers[i] := DispatchCqe(memory, usefuls[i]);
  }

  /** The loop of `TryPollMany`. */
  method DispatchBatch(memory: Memory, usefuls: seq<Cqe>, fibers: array<Option<nat>>)
    requires Addressed(memory) && |usefuls| <= fibers.Length && AllLive(Deref(memory), usefuls)
    modifies fibers, memory.Values`res
    ensures Deref(memory) == StoreAll(old(Deref(memory)), usefuls)
    ensures fibers[..] == WokenByAll(old(Deref(memory)), usefuls) + old(fibers[|usefuls|..])
  {
    ghost var setters := Deref(memory);
    ghost var woken := WokenByAll(setters, usefuls);
    for i := 0 to |usefuls|
      invariant Deref(memory) == StoreAll(setters, usefuls[..i])
      invariant forall h :: 0 <= h < i ==> fibers[h] == woken[h]
      invariant forall h :: i <= h < fibers.Length ==> fibers[h] == old(fibers[h])
    {
      DispatchNext(memory, usefuls, i, fibers, setters);
    }
    assert usefuls[..|usefuls|] == usefuls;
  }

  /** The ring as `TryPoll` leaves it when it waits; `found` are the queues when the wait ends. */
  function AfterWait(r: RingState, found: Queues): RingState
    requires found.cq != []
  {
    var peeked := if r.q.cq == [] then r else Reap(r, 1);
    Reap(peeked.(q := found), 1)
  }

  class RingPoller {
    const ring: Ring
    var attempts: nat
    const maxAttempts: nat

    constructor (ring: Ring, busypollAttempts: nat)
      ensures this.ring == ring && attempts == 0 && maxAttempts == busypollAttempts
    {
      this.ring, attempts, maxAttempts := ring, 0, busypollAttempts;
    }

    /** A call that reaches the maximum waits, and then overwrites what it had already reaped. */
    method TryPoll(memory: Memory, found: Queues) returns (woken: Option<nat>)
      requires Addressed(memory)
      requires attempts + 1 >= maxAttempts ==> found.cq != [] && Live(Deref(memory), found.cq[0].data)
      requires attempts + 1 < maxAttempts && ring.View().q.cq != [] ==> Live(Deref(memory), ring.View().q.cq[0].data)
      modifies ring, this`attempts, memory.Values`res
      ensures var r := old(ring.View());
              var setters := old(Deref(memory));
              if old(attempts) + 1 >= maxAttempts then
                && ring.View() == AfterWait(r, found)
                && attempts == 0
                && Deref(memory) == Store(setters, found.cq[0]) && woken == WokenBy(setters, found.cq[0])
              else if r.q.cq != [] then
                && ring.View() == Reap(r, 1)
                && attempts == 0
                && Deref(memory) == Store(setters, r.q.cq[0]) && woken == WokenBy(setters, r.q.cq[0])
              else
                && ring.View() == r
                && attempts == old(attempts) + 1
                && Deref(memory) == setters && woken == None
    {
      var maybeCqe := ring.TryPoll();
      attempts := attempts + 1;
      if attempts >= maxAttempts {
        ring.Yield(ring.View().(q := found));
        var cqe := ring.Poll();
        maybeCqe := Some(cqe);
      }
      if maybeCqe.Some? {
        attempts := 0;
        woken := DispatchCqe(memory, maybeCqe.value);
        return;
      }
      return None;
    }

    method TryPollMany(memory: Memory, fibers: array<Option<nat>>) returns (ret: nat)
      requires Addressed(memory) && fibers.Length >= BATCH
      requires AllLive(Deref(memory), ring.View().q.cq)
      modifies ring, fibers, memory.Values`res
      ensures ret == if |old(ring.View()).q.cq| <= 16 then |old(ring.View()).q.cq| else 16
      ensures ring.View() == Reap(old(ring.View()), ret)
      ensures Deref(memory) == StoreAll(old(Deref(memory)), old(ring.View()).q.cq[..ret])
      ensures fibers[..] == WokenByAll(old(Deref(memory)), old(ring.View()).q.cq[..ret]) + old(fibers[ret..])
    {
      var usefuls := new Cqe[32](_ => Cqe(SetterId(0, 0, Operation), 0));
      ghost var setters := Deref(memory);
      ghost var batch := ring.ring.cq[..Clip(BATCH, |ring.ring.cq|)];
      assert AllLive(setters, batch);
      ret := ring.TryPollMany(usefuls);
      assert Deref(memory) == setters;
      DispatchBatch(memory, usefuls[..ret], fibers);
    }

    method HasPending() returns (pending: bool)
      ensures pending <==> ring.View().pending > 0
    {
      pending := ring.HasPending();
    }
  }
}
