/** The two `ring_submit` overloads (ring2/ring2/submitter.cc), call by call.

    A call runs in pieces between `tf::Yield` and `Suspend`; what the rest of the program does in
    those gaps is passed in: the ring states it is resumed in, and the completions dispatched while
    it is suspended. `Completion` has all calls together. */
module Submitters {
  import opened Options
  import opened Errno
  import opened Rings
  import opened Pollers

  const SQE_TIMEOUT: int := -ESQE_TIMEOUT

  datatype Outcome = Value(value: int) | Error(errno: int) | Panic

  /** The end of the plain `ring_submit`. */
  function PlainOutcome(res: int): Outcome {
    if res == NOT_SET then Panic else Value(res)
  }

  /** What the kernel never returns. */
  predicate KernelResult(res: int) {
    res != NOT_SET && res != SQE_TIMEOUT
  }

  /** The timeout did not fire: the operation was over before it, or when it was to be armed. */
  predicate OpFirst(timeout: int) {
    timeout == -ECANCELED || timeout == -ENOENT
  }

  /** What the timed `ring_submit` makes of its two results. */
  function TimedOutcome(op: int, timeout: int): Outcome {
    if OpFirst(timeout) then Value(op)
    else if timeout == -ETIME || op >= 0 then Value(SQE_TIMEOUT)
    else Error(-timeout)
  }

  /** `RES_VERIFY(ret >= 2 || ret == 0, ...)`. */
  predicate SubmitOk(ret: nat) {
    ret >= 2 || ret == 0
  }

  /** How far a call got: it still waits for a slot, its submit check failed, or it returned. */
  datatype CallResult = StillWaiting | CheckFailed(ret: nat) | Returned(outcome: Outcome)

  /** Dispatching the batch took the setter from one value to the other: it holds the result of the last
      completion that names it, or what it held if none does; its fiber and wake rule stay. */
  ghost predicate LastStored(before: Setter, after: Setter, id: SetterId, batch: seq<Cqe>) {
    && after.fiber == before.fiber && after.wake == before.wake
    && ((forall c :: c in batch ==> c.data != id) ==> after.res == before.res)
    && (forall i :: 0 <= i < |batch| && batch[i].data == id && (forall j :: i < j < |batch| ==> batch[j].data != id) ==>
          after.res == batch[i].res)
  }

  lemma {:induction false} StoreAllIsLast(setters: Setters, batch: seq<Cqe>, id: SetterId)
    requires id in setters
    ensures id in StoreAll(setters, batch) && LastStored(setters[id], StoreAll(setters, batch)[id], id, batch)
    decreases |batch|
  {
    if batch != [] {
      var n := |batch| - 1;
      StoreAllIsLast(setters, batch[..n], id);
      StoreAllKeeps(setters, batch, id);
      var before, after := StoreAll(setters, batch[..n])[id], StoreAll(setters, batch)[id];
      assert batch[n] in batch;
      if batch[n].data != id {
        assert after == before;
        assert forall c :: c in batch[..n] ==> c in batch;
        forall i | 0 <= i < |batch| && batch[i].data == id && forall j :: i < j < |batch| ==> batch[j].data != id
          ensures after.res == batch[i].res
        {
          assert batch[..n][i] == batch[i];
        }
      }
    }
  }

  /** What a call does to the setters of all others: a call that is suspended lets the poller dispatch,
      and nothing else writes them. */
  ghost predicate OthersKept(before: Setters, after: Setters, dispatched: seq<Cqe>) {
    forall id :: id in before ==> id in after && LastStored(before[id], after[id], id, dispatched)
  }

  /** What other fibers let the poller dispatch while this one is suspended; `others` are the setters
      outside its own frame. */
  method Suspend(memory: Memory, others: Memory, dispatched: seq<Cqe>)
    requires Addressed(memory) && AllLive(Deref(memory), dispatched)
    requires forall id :: id in others ==> id in memory && memory[id] == others[id]
    modifies memory.Values`res
    ensures Deref(memory) == StoreAll(old(Deref(memory)), dispatched)
    ensures OthersKept(old(Deref(others)), Deref(others), dispatched)
  {
    ghost var setters := Deref(memory);
    for i := 0 to |dispatched|
      invariant Deref(memory) == StoreAll(setters, dispatched[..i])
    {
      BatchNext(setters, dispatched, i);
      StoreAllKeeps(setters, dispatched[..i], dispatched[i].data);
      assert dispatched[i] in dispatched;
      var woken := DispatchCqe(memory, dispatched[i]);
    }
    assert dispatched[..|dispatched|] == dispatched;
    forall id | id in others
      ensures LastStored(old(Deref(others))[id], Deref(others)[id], id, dispatched)
    {
      StoreAllIsLast(setters, dispatched, id);
      assert Deref(others)[id] == Deref(memory)[id] && old(Deref(others))[id] == setters[id];
    }
  }

  /** The setters with the frame of a plain call. */
  function WithPlain(setters: Setters, op: SetterId, fiber: nat): Setters {
    setters[op := Setter(fiber, NOT_SET, Always)]
  }

  /** The setters with the frame of a timed call. */
  function WithTimed(setters: Setters, op: SetterId, timeout: SetterId, fiber: nat): Setters {
    setters[op := Setter(fiber, NOT_SET, BothSet(op, timeout))][timeout := Setter(fiber, NOT_SET, BothSet(op, timeout))]
  }

  method PushPlain(memory: Memory, op: SetterId, fiber: nat) returns (memory': Memory)
    requires Addressed(memory) && op !in memory
    ensures Addressed(memory') && Deref(memory') == WithPlain(Deref(memory), op, fiber)
    ensures memory'.Keys == memory.Keys + {op} && fresh(memory'[op])
    ensures forall id :: id in memory ==> memory'[id] == memory[id]
  {
    var setter := new UringResSetter(op, fiber, NOT_SET);
    memory' := memory[op := setter];
  }

  method PushTimed(memory: Memory, op: SetterId, timeout: SetterId, fiber: nat) returns (memory': Memory)
    requires Addressed(memory) && op !in memory && timeout !in memory && op != timeout
    ensures Addressed(memory') && Deref(memory') == WithTimed(Deref(memory), op, timeout, fiber)
    ensures memory'.Keys == memory.Keys + {op, timeout} && fresh(memory'[op]) && fresh(memory'[timeout])
    ensures forall id :: id in memory ==> memory'[id] == memory[id]
  {
    var opSetter := new UringResSetter(op, fiber, NOT_SET);
    var timeoutSetter := new UringResSetter(timeout, fiber, NOT_SET);
    opSetter.shouldWake := BothSet(op, timeout);
    timeoutSetter.shouldWake := BothSet(op, timeout);
    memory' := memory[op := opSetter][timeout := timeoutSetter];
  }

  /** The plain form. */
  method RingSubmit(ring: Ring, memory: Memory, op: SetterId, fiber: nat, resumes: seq<RingState>, taken: nat,
                    dispatched: seq<Cqe>) returns (result: CallResult)
    requires Addressed(memory) && op !in memory
    requires AllLive(WithPlain(Deref(memory), op, fiber), dispatched)
    modifies ring, memory.Values`res
    ensures result.Returned? ==> OthersKept(old(Deref(memory)), Deref(memory), dispatched)
    ensures !result.Returned? ==> Deref(memory) == old(Deref(memory))
    ensures var seen := [old(ring.View())] + resumes;
            var j := FirstFree(seen);
            if j == |seen| then result == StillWaiting && ring.View() == Starve(seen[|seen| - 1])
            else
              && ring.View() == Place(seen[j], j > 0, Sqe(op, false), false, taken)
              && result ==
                   Returned(PlainOutcome(ResultOf(StoreAll(WithPlain(old(Deref(memory)), op, fiber), dispatched), op)))
  {
    var memory' := PushPlain(memory, op, fiber);
    assert forall id :: id in memory ==> memory'[id] in memory.Values;
    var submitted, yielded := ring.Submit(Sqe(op, false), false, resumes, taken);
    assert Deref(memory') == WithPlain(old(Deref(memory)), op, fiber);
    assert Deref(memory) == old(Deref(memory));
    if submitted.Starving? {
      return StillWaiting;
    }
    Suspend(memory', memory, dispatched);
    var res := memory'[op].res;
    assert res == ResultOf(Deref(memory'), op);
    if res == NOT_SET {
      return Returned(Panic);
    }
    return Returned(Value(res));
  }

  /** What follows the suspension in the timed form. Whoever called can tell from the value alone
      whether the operation or the timeout came first; an error means that the operation failed and
      the timeout ended in none of the three expected ways. */
  method FinishTimed(op: UringResSetter, timeout: UringResSetter) returns (outcome: Outcome)
    ensures outcome == TimedOutcome(op.res, timeout.res)
    ensures KernelResult(op.res) ==> (outcome == Value(op.res) <==> OpFirst(timeout.res))
    ensures KernelResult(op.res) ==>
              (outcome == Value(SQE_TIMEOUT) <==> !OpFirst(timeout.res) && (timeout.res == -ETIME || op.res >= 0))
    ensures outcome.Error? <==> !OpFirst(timeout.res) && timeout.res != -ETIME && op.res < 0
    ensures outcome.Error? ==> outcome.errno == -timeout.res
    ensures !outcome.Panic?
  {
    if timeout.res == -ENOENT {
      return Value(op.res);
    }
    if !((timeout.res == -ECANCELED || timeout.res == -ETIME) || op.res >= 0) {
      return Error(-timeout.res);
    }
    if timeout.res == -ECANCELED {
      return Value(op.res);
    }
    return Value(SQE_TIMEOUT);
  }

  /** The ring before and after the two submits of the timed form, and the count that the second
      returns, if it comes to that. */
  ghost predicate BothSubmitted(r: RingState, op: SetterId, timeout: SetterId, resumes: seq<RingState>,
                                resumesAgain: seq<RingState>, taken: nat, ret: Option<nat>, r': RingState) {
    var seen := [r] + resumes;
    var j := FirstFree(seen);
    if j == |seen| then ret == None && r' == Starve(seen[|seen| - 1])
    else
      var again := [Place(seen[j], j > 0, Sqe(op, true), true, 0)] + resumesAgain;
      var k := FirstFree(again);
      if k == |again| then ret == None && r' == Starve(again[|again| - 1])
      else r' == Place(again[k], k > 0, Sqe(timeout, false), false, taken) && ret == Some(|r'.q.visible|)
  }

  /** Both submits of the timed form: none while one of them waits for a slot, else the count that
      the second returns. */
  method SubmitBoth(ring: Ring, op: SetterId, timeout: SetterId, resumes: seq<RingState>,
                    resumesAgain: seq<RingState>, taken: nat)
    returns (ret: Option<nat>)
    modifies ring
    ensures BothSubmitted(old(ring.View()), op, timeout, resumes, resumesAgain, taken, ret, ring.View())
  {
    var submitted, yielded := ring.Submit(Sqe(op, true), true, resumes, 0);
    if submitted.Starving? {
      return None;
    }
    submitted, yielded := ring.Submit(Sqe(timeout, false), false, resumesAgain, taken);
    if submitted.Starving? {
      return None;
    }
    return Some(submitted.ret);
  }

  /** The timed form up to its suspension. */
  method StartTimed(ring: Ring, memory: Memory, op: SetterId, timeout: SetterId, fiber: nat,
                    resumes: seq<RingState>, resumesAgain: seq<RingState>, taken: nat)
    returns (memory': Memory, ret: Option<nat>)
    requires Addressed(memory) && op !in memory && timeout !in memory && op != timeout
    modifies ring
    ensures Addressed(memory') && Deref(memory') == WithTimed(Deref(memory), op, timeout, fiber)
    ensures op in memory' && timeout in memory' && fresh(memory'[op]) && fresh(memory'[timeout])
    ensures memory'.Keys == memory.Keys + {op, timeout} && forall id :: id in memory ==> memory'[id] == memory[id]
    ensures Deref(memory) == old(Deref(memory))
    ensures BothSubmitted(old(ring.View()), op, timeout, resumes, resumesAgain, taken, ret, ring.View())
  {
    memory' := PushTimed(memory, op, timeout, fiber);
    ret := SubmitBoth(ring, op, timeout, resumes, resumesAgain, taken);
  }

  /** The timed form from its suspension on. */
  method AwaitBoth(memory: Memory, others: Memory, op: SetterId, timeout: SetterId, dispatched: seq<Cqe>)
    returns (outcome: Outcome)
    requires Addressed(memory) && AllLive(Deref(memory), dispatched) && op in memory && timeout in memory
    requires forall id :: id in others ==> id in memory && memory[id] == others[id]
    modifies memory.Values`res
    ensures OthersKept(old(Deref(others)), Deref(others), dispatched)
    ensures var setters := StoreAll(old(Deref(memory)), dispatched);
            outcome == TimedOutcome(ResultOf(setters, op), ResultOf(setters, timeout))
  {
    Suspend(memory, others, dispatched);
    outcome := FinishTimed(memory[op], memory[timeout]);
    assert Deref(memory)[op].res == memory[op].res && Deref(memory)[timeout].res == memory[timeout].res;
  }

  /** The timed form. */
  method RingSubmitTimed(ring: Ring, memory: Memory, op: SetterId, timeout: SetterId, fiber: nat,
                         resumes: seq<RingState>, resumesAgain: seq<RingState>, taken: nat, dispatched: seq<Cqe>)
    returns (result: CallResult)
    requires Addressed(memory) && op !in memory && timeout !in memory && op != timeout
    requires AllLive(WithTimed(Deref(memory), op, timeout, fiber), dispatched)
    modifies ring, memory.Values`res
    ensures result.Returned? ==> OthersKept(old(Deref(memory)), Deref(memory), dispatched)
    ensures !result.Returned? ==> Deref(memory) == old(Deref(memory))
    ensures var seen := [old(ring.View())] + resumes;
            var j := FirstFree(seen);
            if j == |seen| then result == StillWaiting && ring.View() == Starve(seen[|seen| - 1])
            else
              var again := [Place(seen[j], j > 0, Sqe(op, true), true, 0)] + resumesAgain;
              var k := FirstFree(again);
              if k == |again| then result == StillWaiting && ring.View() == Starve(again[|again| - 1])
              else
                var placed := Place(again[k], k > 0, Sqe(timeout, false), false, taken);
                var setters := StoreAll(WithTimed(old(Deref(memory)), op, timeout, fiber), dispatched);
                && ring.View() == placed
                && result == if SubmitOk(|placed.q.visible|)
                             then Returned(TimedOutcome(ResultOf(setters, op), ResultOf(setters, timeout)))
                             else CheckFailed(|placed.q.visible|)
  {
    var memory', ret := StartTimed(ring, memory, op, timeout, fiber, resumes, resumesAgain, taken);
    if ret.None? {
      return StillWaiting;
    }
    if !SubmitOk(ret.value) {
      return CheckFailed(ret.value);
    }
    var outcome := AwaitBoth(memory', memory, op, timeout, dispatched);
    return Returned(outcome);
  }
}
