/** Lifetime, wake-up and results of `ring_submit`, over every run of `Completion`. */
module CompletionTheorems {
  import opened Errno
  import opened Rings
  import opened Pollers
  import opened Submitters
  import opened Completion
  import opened CompletionInvariant

  // Setter lifetime.

  /** Every `user_data` in the queues points into the frame of a call that is still running. */
  ghost predicate SetterLifetime(s: State) {
    forall id :: id in Load(s.ring.q) ==> id in s.setters && Current(s.fibers, id)
  }

  lemma InvGivesLifetime(s: State)
    requires Inv(s)
    ensures SetterLifetime(s)
  {
    forall id | id in Load(s.ring.q)
      ensures id in s.setters && Current(s.fibers, id)
    {
      LoadBounds(s, [], id);
      NamedOnce(s, [], id);
    }
  }

  lemma PlacedIsLoaded(r: RingState, starved: bool, sqe: Sqe, nextIsTimeout: bool, taken: nat)
    requires CanGetSqe(r.q)
    ensures sqe.data in Load(Place(r, starved, sqe, nextIsTimeout, taken).q)
  {
    PlaceLoad(r, starved, sqe, nextIsTimeout, taken);
  }

  /** A failing check leaves the timeout SQE in the queues and no setter behind it. */
  lemma FailureDangles(s: State, step: Step)
    requires Enabled(s, step) && FailsCheck(s, step)
    ensures !SetterLifetime(Apply(s, step)) && !Inv(Apply(s, step))
  {
    var f, t := s.control.fiber, Apply(s, step);
    PlaceShape(s, step.taken);
    PlacedIsLoaded(s.ring, s.fibers[f].starved, NextSqe(s, f), false, step.taken);
    assert Id(s.fibers, f, LinkTimeout) !in t.setters;
    assert t.fibers[f].pc.Failed? && !FibersInv(t.fibers, t.setters);
  }

  /** Setters outlive everything that names them in exactly the runs in which no timed call fails
      its submit check. */
  lemma LifetimeExactly(states: seq<State>, steps: seq<Step>)
    requires IsRun(states, steps) && Init(states[0])
    ensures (forall n :: 0 <= n <= |steps| ==> SetterLifetime(states[n])) <==> Sound(states, steps)
  {
    InitInv(states[0]);
    if Sound(states, steps) {
      forall n | 0 <= n <= |steps|
        ensures SetterLifetime(states[n])
      {
        RunInv(states, steps, n);
        InvGivesLifetime(states[n]);
      }
    } else {
      var n :| 0 <= n < |steps| && FailsCheck(states[n], steps[n]);
      FailureDangles(states[n], steps[n]);
      assert !SetterLifetime(states[n + 1]);
    }
  }

  /** One step at a time: the invariant survives unless the check fails. */
  lemma StepKeepsLifetimeExactly(s: State, step: Step)
    requires Inv(s) && Enabled(s, step)
    ensures SetterLifetime(Apply(s, step)) <==> !FailsCheck(s, step)
    ensures Inv(Apply(s, step)) <==> !FailsCheck(s, step)
  {
    if FailsCheck(s, step) {
      FailureDangles(s, step);
    } else {
      StepInv(s, step);
      InvGivesLifetime(Apply(s, step));
    }
  }

  /** No dispatch ever writes through a dangling `user_data`. */
  lemma NeverCorrupt(states: seq<State>, steps: seq<Step>, n: nat)
    requires IsRun(states, steps) && Init(states[0]) && Sound(states, steps) && n <= |steps|
    ensures !states[n].corrupt
  {
    InitInv(states[0]);
    RunInv(states, steps, n);
  }

  /** When a call returns, nothing anywhere names its setters, and each of them holds the kernel's
      result: in the timed form both completions were dispatched, in whichever order. */
  lemma ReturnsAfterAllDispatched(states: seq<State>, steps: seq<Step>, n: nat, id: SetterId)
    requires IsRun(states, steps) && Init(states[0]) && Sound(states, steps)
    requires n < |steps| && steps[n].Finish? && id.fiber == steps[n].fiber
    ensures id !in Load(states[n].ring.q) && id !in states[n].dropped
    ensures Current(states[n].fibers, id) ==>
              id in states[n].setters && id in states[n].results && states[n].setters[id].res == states[n].results[id]
  {
    InitInv(states[0]);
    RunInv(states, steps, n);
    var s := states[n];
    assert AllSet(s.fibers, s.setters, id.fiber);
    assert !Outstanding(s.fibers, s.setters, id) by {
      assert Current(s.fibers, id) ==>
             id == Id(s.fibers, id.fiber, Operation) || id == Id(s.fibers, id.fiber, LinkTimeout);
    }
    assert Named(s, [])[id] == 0;
  }

  // Waking.

  /** `dispatch` returns a fiber exactly once in each call it completes, at most once in the call it
      is in, never in another, and only while it is parked. */
  lemma WokenExactlyOnce(states: seq<State>, steps: seq<Step>, n: nat, f: nat, c: nat)
    requires IsRun(states, steps) && Init(states[0]) && Sound(states, steps) && n <= |steps| && f < |states[n].fibers|
    ensures states[n].wakes[Wake(f, c, false)] == 0
    ensures states[n].wakes[Wake(f, c, true)] <= 1
    ensures c < states[n].fibers[f].call ==> states[n].wakes[Wake(f, c, true)] == 1
    ensures c > states[n].fibers[f].call ==> states[n].wakes[Wake(f, c, true)] == 0
    ensures states[n].wakes[Wake(f, states[n].fibers[f].call, true)] == 1 <==> states[n].fibers[f].pc.Woken?
  {
    InitInv(states[0]);
    RunInv(states, steps, n);
    var s := states[n];
    assert forall parked :: s.wakes[Wake(f, c, parked)] == if parked && WokenIn(s.fibers, f, c) then 1 else 0;
    assert WokenIn(states[n].fibers, f, states[n].fibers[f].call) == states[n].fibers[f].pc.Woken?;
  }

  /** Every fiber that a dispatch yields is recorded, parked or not, so that the counts of wakes leave
      none out. */
  lemma YieldIsRecorded(s: State, c: Cqe)
    requires Live(s.setters, c.data)
    ensures match WokenBy(s.setters, c)
            case None => Deliver(s, c).wakes == s.wakes
            case Some(f) =>
              f < |s.fibers| ==>
                Deliver(s, c).wakes == s.wakes + multiset{Wake(f, s.fibers[f].call, s.fibers[f].pc.Parked?)}
  {
  }

  // What calls return.

  /** Whether the caller got the operation's result or a timeout can be read off the timeout's. */
  lemma TimedValue(op: int, timeout: int)
    requires KernelResult(op)
    ensures var r := TimedOutcome(op, timeout);
            && (r == Value(op) <==> OpFirst(timeout))
            && (r == Value(SQE_TIMEOUT) <==> !OpFirst(timeout) && (timeout == -ETIME || op >= 0))
            && (r.Error? <==> !OpFirst(timeout) && timeout != -ETIME && op < 0)
            && (r.Value? ==> r.value == op || r.value == SQE_TIMEOUT)
            && !r.Panic?
  {
  }

  /** Every timed call that returned a value did so with both kernel results in hand. */
  lemma TimedReturns(states: seq<State>, steps: seq<Step>, n: nat, r: Return)
    requires IsRun(states, steps) && Init(states[0]) && Sound(states, steps) && n <= |steps|
    requires r in states[n].log && r.timed
    ensures var op, timeout := SetterId(r.fiber, r.call, Operation), SetterId(r.fiber, r.call, LinkTimeout);
            var results := states[n].results;
            && op in results && timeout in results
            && (r.outcome == Value(results[op]) <==> OpFirst(results[timeout]))
            && (r.outcome.Value? && !OpFirst(results[timeout]) ==> r.outcome == Value(SQE_TIMEOUT))
            && (r.outcome == Value(SQE_TIMEOUT) ==> !OpFirst(results[timeout]))
  {
    InitInv(states[0]);
    RunInv(states, steps, n);
    assert ReturnsOwn(states[n].results, r);
    TimedValue(states[n].results[SetterId(r.fiber, r.call, Operation)],
               states[n].results[SetterId(r.fiber, r.call, LinkTimeout)]);
  }

  /** The blocking view: who has called how often, and what came back. */
  datatype Blocking = Blocking(calls: seq<nat>, log: seq<Return>)

  function View(s: State): Blocking {
    Blocking(seq(|s.fibers|, f requires 0 <= f < |s.fibers| => s.fibers[f].call), s.log)
  }

  /** A call that happens in one piece and returns what the kernel says to its own SQEs. */
  ghost predicate AtomicCall(b: Blocking, b': Blocking, kernel: Results, f: nat, timed: bool) {
    && f < |b.calls|
    && b'.calls == b.calls[f := b.calls[f] + 1]
    && b'.log != []
    && var r := b'.log[|b'.log| - 1];
       && b'.log == b.log + [r]
       && r.fiber == f && r.call == b.calls[f] && r.timed == timed
       && ReturnsOwn(kernel, r) && !r.outcome.Panic?
  }

  ghost predicate BlockingStep(b: Blocking, b': Blocking, kernel: Results) {
    b' == b || exists f, timed :: AtomicCall(b, b', kernel, f, timed)
  }

  /** Dispatching leaves calls, log and kernel results alone. */
  lemma DeliverView(s: State, c: Cqe)
    ensures View(Deliver(s, c)) == View(s) && Deliver(s, c).results == s.results
  {
    var t := Deliver(s, c);
    assert |t.fibers| == |s.fibers| && forall f :: 0 <= f < |s.fibers| ==> t.fibers[f].call == s.fibers[f].call;
  }

  lemma {:induction false} DeliverAllView(s: State, batch: seq<Cqe>)
    ensures View(DeliverAll(s, batch)) == View(s) && DeliverAll(s, batch).results == s.results
    decreases |batch|
  {
    if batch != [] {
      DeliverAllView(s, batch[..|batch| - 1]);
      DeliverView(DeliverAll(s, batch[..|batch| - 1]), batch[|batch| - 1]);
    }
  }

  lemma PollView(s: State)
    ensures View(PollOnce(s)) == View(s) && PollOnce(s).results == s.results
  {
    if s.ring.q.cq != [] {
      DeliverView(s.(ring := Reap(s.ring, 1), attempts := 0), s.ring.q.cq[0]);
    }
  }

  lemma TryView(s: State, f: nat, taken: nat)
    requires f < |s.fibers|
    ensures View(TryToPlace(s, f, taken)) == View(s) && TryToPlace(s, f, taken).results == s.results
  {
    var t := TryToPlace(s, f, taken);
    assert t.fibers == s.fibers[f := t.fibers[f]] && t.fibers[f].call == s.fibers[f].call;
  }

  /** Only a finished call shows, and only the kernel makes results. */
  lemma StepView(s: State, step: Step)
    requires Enabled(s, step)
    ensures !step.Finish? ==> View(Apply(s, step)) == View(s)
    ensures !step.KernelComplete? ==> Apply(s, step).results == s.results
  {
    match step
    case Attempt(taken) => TryView(s, s.control.fiber, taken);
    case Poll => PollView(s);
    case WaitOver => DeliverView(s.(ring := Reap(s.ring, 1), control := Scheduler, attempts := 0), s.ring.q.cq[0]);
    case PollMany =>
      var k := Clip(BATCH, |s.ring.q.cq|);
      DeliverAllView(s.(ring := Reap(s.ring, k)), s.ring.q.cq[..k]);
    case _ =>
  }

  ghost predicate Extends(smaller: Results, larger: Results) {
    forall id :: id in smaller ==> id in larger && larger[id] == smaller[id]
  }

  lemma InflightIsFresh(q: Queues, results: Results, i: nat)
    requires Fresh(results, Uncompleted(q)) && i < |q.inflight|
    ensures q.inflight[i] !in results
  {
    assert q.inflight[i] in multiset(q.inflight);
  }

  lemma StepExtendsResults(s: State, step: Step)
    requires Enabled(s, step) && Fresh(s.results, Uncompleted(s.ring.q))
    ensures Extends(s.results, Apply(s, step).results)
  {
    StepView(s, step);
    if step.KernelComplete? {
      InflightIsFresh(s.ring.q, s.results, step.i);
    }
  }

  /** The step in which the kernel reports this result for this setter's SQE. */
  predicate Reports(s: State, step: Step, id: SetterId, res: int) {
    step.KernelComplete? && Enabled(s, step) && s.ring.q.inflight[step.i] == id && step.res == res
  }

  lemma StepReports(s: State, step: Step, id: SetterId, res: int)
    requires Enabled(s, step) && Fresh(s.results, Uncompleted(s.ring.q))
    ensures var results := Apply(s, step).results;
            id in results && results[id] == res <==>
              (id in s.results && s.results[id] == res) || Reports(s, step, id, res)
    ensures Reports(s, step, id, res) ==> Apply(s, step).ring.q.cq == s.ring.q.cq + [Cqe(id, res)]
  {
    StepView(s, step);
    if step.KernelComplete? {
      InflightIsFresh(s.ring.q, s.results, step.i);
    }
  }

  /** What the theorems call the kernel's result for an SQE is the one that the kernel reported for it in
      some step of the run, and no other. */
  lemma {:induction false} ResultsAreTheKernels(states: seq<State>, steps: seq<Step>, n: nat, id: SetterId, res: int)
    requires IsRun(states, steps) && Init(states[0]) && Sound(states, steps) && n <= |steps|
    ensures id in states[n].results && states[n].results[id] == res <==>
            exists i :: 0 <= i < n && Reports(states[i], steps[i], id, res)
  {
    if n > 0 {
      ResultsAreTheKernels(states, steps, n - 1, id, res);
      InitInv(states[0]);
      RunInv(states, steps, n - 1);
      StepReports(states[n - 1], steps[n - 1], id, res);
    }
  }

  lemma ExtendsReturnsOwn(results: Results, kernel: Results, r: Return)
    requires Extends(results, kernel) && ReturnsOwn(results, r)
    ensures ReturnsOwn(kernel, r)
  {
  }

  lemma FinishIsAtomicCall(s: State, f: nat, kernel: Results)
    requires f < |s.fibers| && s.fibers[f].pc.Woken? && FibersInv(s.fibers, s.setters)
    requires SettersInv(s.fibers, s.setters) && ResultsInv(s.fibers, s.setters, s.results) && LogInv(s.results, s.log)
    requires Extends(s.results, kernel)
    ensures AtomicCall(View(s), View(FinishCall(s, f)), kernel, f, Timed(s.fibers[f].pc))
  {
    var t := FinishCall(s, f);
    FinishLog(s, f);
    var r := t.log[|s.log|];
    assert t.log == s.log + [r] && r in t.log;
    ExtendsReturnsOwn(s.results, kernel, r);
    assert View(t).calls == View(s).calls[f := View(s).calls[f] + 1];
  }

  /** Each step is invisible to callers or is one whole call. */
  lemma StepRefines(s: State, step: Step, kernel: Results)
    requires Inv(s) && Enabled(s, step) && Extends(s.results, kernel)
    ensures BlockingStep(View(s), View(Apply(s, step)), kernel)
  {
    StepView(s, step);
    if step.Finish? {
      FinishIsAtomicCall(s, step.fiber, kernel);
    }
  }

  lemma {:induction false} ResultsGrow(states: seq<State>, steps: seq<Step>, n: nat)
    requires IsRun(states, steps) && Inv(states[0]) && Sound(states, steps) && n <= |steps|
    ensures Extends(states[n].results, states[|steps|].results)
    decreases |steps| - n
  {
    if n < |steps| {
      RunInv(states, steps, n);
      StepExtendsResults(states[n], steps[n]);
      ResultsGrow(states, steps, n + 1);
    }
  }

  /** Any run looks to its callers like a run of atomic calls, each returning the kernel's result
      for its own SQEs; no call panics. */
  lemma RefinesBlockingCalls(states: seq<State>, steps: seq<Step>, n: nat)
    requires IsRun(states, steps) && Init(states[0]) && Sound(states, steps) && n < |steps|
    ensures View(states[0]) == Blocking(seq(|states[0].fibers|, _ => 0), [])
    ensures BlockingStep(View(states[n]), View(states[n + 1]), states[|steps|].results)
  {
    InitInv(states[0]);
    RunInv(states, steps, n);
    ResultsGrow(states, steps, n);
    StepRefines(states[n], steps[n], states[|steps|].results);
  }

  /** A plain call returns the kernel's result for its own SQE; the `enocqe` panic is unreachable. */
  lemma PlainReturnsOwnResult(states: seq<State>, steps: seq<Step>, n: nat, r: Return)
    requires IsRun(states, steps) && Init(states[0]) && Sound(states, steps) && n <= |steps|
    requires r in states[n].log && !r.timed
    ensures var op := SetterId(r.fiber, r.call, Operation);
            op in states[n].results && r.outcome == Value(states[n].results[op])
  {
    InitInv(states[0]);
    RunInv(states, steps, n);
    assert ReturnsOwn(states[n].results, r);
  }
}
