/** Counting and draining: `pending_count_`, `has_pending`, and what is left once submits stop. */
module CompletionProgress {
  import opened Rings
  import opened Pollers
  import opened Completion
  import opened CompletionInvariant

  // pending_count_

  lemma WrapStep(x: int, d: int)
    ensures Wrap(Wrap(x) + d) == Wrap(x + d)
  {
  }

  function Size(q: Queues): nat {
    |q.built| + |q.visible| + |q.inflight| + |q.cq|
  }

  lemma PlaceSize(r: RingState, starved: bool, sqe: Sqe, nextIsTimeout: bool, taken: nat)
    ensures Size(Place(r, starved, sqe, nextIsTimeout, taken).q) == Size(r.q) + 1
  {
  }

  /** Dispatching touches neither ring nor poller. */
  lemma DeliverRing(s: State, c: Cqe)
    ensures Deliver(s, c).ring == s.ring && Deliver(s, c).dropped == s.dropped && Deliver(s, c).control == s.control
    ensures Deliver(s, c).attempts == s.attempts && Deliver(s, c).maxAttempts == s.maxAttempts
  {
  }

  lemma {:induction false} DeliverAllRing(s: State, batch: seq<Cqe>)
    ensures var t := DeliverAll(s, batch);
            && t.ring == s.ring && t.dropped == s.dropped && t.control == s.control
            && t.attempts == s.attempts && t.maxAttempts == s.maxAttempts
    decreases |batch|
  {
    if batch != [] {
      DeliverAllRing(s, batch[..|batch| - 1]);
      DeliverRing(DeliverAll(s, batch[..|batch| - 1]), batch[|batch| - 1]);
    }
  }

  predicate IsDispatch(step: Step) {
    step.Poll? || step.WaitOver? || step.PollMany?
  }

  /** What dispatching does to a fiber: nothing, or it wakes it. */
  ghost predicate Nudged(before: Fiber, after: Fiber) {
    after == before || (before.pc.Parked? && after == before.(pc := Woken(before.pc.timed)))
  }

  ghost predicate AllNudged(before: Fibers, after: Fibers) {
    |after| == |before| && forall f :: 0 <= f < |before| ==> Nudged(before[f], after[f])
  }

  lemma DeliverNudges(s: State, c: Cqe)
    ensures AllNudged(s.fibers, Deliver(s, c).fibers)
  {
  }

  lemma {:induction false} DeliverAllNudges(s: State, batch: seq<Cqe>)
    ensures AllNudged(s.fibers, DeliverAll(s, batch).fibers)
    decreases |batch|
  {
    if batch != [] {
      DeliverAllNudges(s, batch[..|batch| - 1]);
      DeliverNudges(DeliverAll(s, batch[..|batch| - 1]), batch[|batch| - 1]);
    }
  }

  lemma StepNudges(s: State, step: Step)
    requires Enabled(s, step) && IsDispatch(step)
    ensures AllNudged(s.fibers, Apply(s, step).fibers)
  {
    match step
    case Poll => if s.ring.q.cq != [] { DeliverNudges(s.(ring := Reap(s.ring, 1), attempts := 0), s.ring.q.cq[0]); }
    case WaitOver =>
      DeliverNudges(s.(ring := Reap(s.ring, 1), control := Scheduler, attempts := 0), s.ring.q.cq[0]);
    case PollMany =>
      var k := Clip(BATCH, |s.ring.q.cq|);
      DeliverAllNudges(s.(ring := Reap(s.ring, k)), s.ring.q.cq[..k]);
  }

  lemma SameFibers(s: State, step: Step)
    requires Enabled(s, step)
    ensures |Apply(s, step).fibers| == |s.fibers|
  {
    if IsDispatch(step) {
      StepNudges(s, step);
    }
  }

  /** What each step does to the ring. */
  lemma StepRing(s: State, step: Step)
    requires Enabled(s, step)
    ensures var r, r' := s.ring, Apply(s, step).ring;
            match step
            case Attempt(taken) =>
              var f := s.control.fiber;
              if CanGetSqe(r.q) then r' == Place(r, s.fibers[f].starved, NextSqe(s, f), s.fibers[f].pc.TryOp?, taken)
              else r' == Starve(r)
            case KernelTake(k) => r' == r.(q := Take(r.q, k))
            case KernelComplete(i, res) => r' == r.(q := Complete(r.q, i, res))
            case Poll => r' == if r.q.cq == [] then r else Reap(r, 1)
            case WaitOver => r' == Reap(r, 1)
            case PollMany => r' == Reap(r, Clip(BATCH, |r.q.cq|))
            case _ => r' == r
  {
    match step
    case Poll => if s.ring.q.cq != [] { DeliverRing(s.(ring := Reap(s.ring, 1), attempts := 0), s.ring.q.cq[0]); }
    case WaitOver => DeliverRing(s.(ring := Reap(s.ring, 1), control := Scheduler, attempts := 0), s.ring.q.cq[0]);
    case PollMany =>
      var k := Clip(BATCH, |s.ring.q.cq|);
      DeliverAllRing(s.(ring := Reap(s.ring, k)), s.ring.q.cq[..k]);
    case _ =>
  }

  /** Only a poll that overwrites a completion loses one. */
  lemma StepDropped(s: State, step: Step)
    requires Enabled(s, step)
    ensures Apply(s, step).dropped == if DropsCqe(s, step) then s.dropped + multiset{s.ring.q.cq[0].data} else s.dropped
  {
    match step
    case Poll => if s.ring.q.cq != [] { DeliverRing(s.(ring := Reap(s.ring, 1), attempts := 0), s.ring.q.cq[0]); }
    case WaitOver => DeliverRing(s.(ring := Reap(s.ring, 1), control := Scheduler, attempts := 0), s.ring.q.cq[0]);
    case PollMany =>
      var k := Clip(BATCH, |s.ring.q.cq|);
      DeliverAllRing(s.(ring := Reap(s.ring, k)), s.ring.q.cq[..k]);
    case _ =>
  }

  /** Counting in a size_t, the pending count is the number of entries in all four queues. */
  ghost predicate PendingCounts(r: RingState) {
    r.pending == Wrap(Size(r.q))
  }

  lemma PlacePending(r: RingState, starved: bool, sqe: Sqe, nextIsTimeout: bool, taken: nat)
    requires PendingCounts(r)
    ensures PendingCounts(Place(r, starved, sqe, nextIsTimeout, taken))
  {
    PlaceSize(r, starved, sqe, nextIsTimeout, taken);
    WrapStep(Size(r.q), 1);
  }

  lemma ReapPending(r: RingState, k: nat)
    requires PendingCounts(r) && k <= |r.q.cq|
    ensures PendingCounts(Reap(r, k))
  {
    WrapStep(Size(r.q), -(k as int));
  }

  lemma KernelPending(r: RingState, q: Queues)
    requires PendingCounts(r) && Size(q) == Size(r.q)
    ensures PendingCounts(r.(q := q))
  {
  }

  lemma StepPending(s: State, step: Step)
    requires Enabled(s, step) && PendingCounts(s.ring)
    ensures PendingCounts(Apply(s, step).ring)
  {
    StepRing(s, step);
    var r := s.ring;
    match step
    case Attempt(taken) =>
      var f := s.control.fiber;
      PlacePending(r, s.fibers[f].starved, NextSqe(s, f), s.fibers[f].pc.TryOp?, taken);
    case KernelTake(k) => KernelPending(r, Take(r.q, k));
    case KernelComplete(i, res) => KernelPending(r, Complete(r.q, i, res));
    case Poll => if r.q.cq != [] { ReapPending(r, 1); }
    case WaitOver => ReapPending(r, 1);
    case PollMany => ReapPending(r, Clip(BATCH, |r.q.cq|));
    case _ =>
  }

  /** On every run, failing checks and dropped completions included. */
  lemma {:induction false} PendingConserved(states: seq<State>, steps: seq<Step>, n: nat)
    requires IsRun(states, steps) && Init(states[0]) && n <= |steps|
    ensures PendingCounts(states[n].ring)
  {
    if n > 0 {
      PendingConserved(states, steps, n - 1);
      StepPending(states[n - 1], steps[n - 1]);
    }
  }

  lemma TwoHalves(fibers: Fibers, f: nat)
    requires f < |fibers|
    ensures forall id: SetterId :: id.fiber == f && id.call == fibers[f].call ==>
              id == Id(fibers, f, Operation) || id == Id(fibers, f, LinkTimeout)
  {
    forall id: SetterId | id.fiber == f && id.call == fibers[f].call
      ensures id == Id(fibers, f, Operation) || id == Id(fibers, f, LinkTimeout)
    {
      match id.half
      case Operation =>
      case LinkTimeout =>
    }
  }

  /** The setters there can be in the frames of the first n fibers. */
  ghost function FrameIds(fibers: Fibers, n: nat): (ids: set<SetterId>)
    requires n <= |fibers|
    ensures |ids| <= 2 * n
    ensures forall id: SetterId :: id.fiber < n && id.call == fibers[id.fiber].call ==> id in ids
  {
    if n == 0 then {}
    else
      var rest := FrameIds(fibers, n - 1);
      var op, timeout := Id(fibers, n - 1, Operation), Id(fibers, n - 1, LinkTimeout);
      assert |rest + {op}| <= |rest| + 1;
      assert |rest + {op} + {timeout}| <= |rest + {op}| + 1;
      TwoHalves(fibers, n - 1);
      rest + {op} + {timeout}
  }

  lemma SubmultisetSize(a: multiset<SetterId>, b: multiset<SetterId>)
    requires a <= b
    ensures |a| <= |b|
  {
    assert b == a + (b - a);
  }

  /** Each fiber has at most two entries in the queues. */
  lemma LoadIsBounded(s: State)
    requires Inv(s)
    ensures |Load(s.ring.q)| <= 2 * |s.fibers|
  {
    var ids := FrameIds(s.fibers, |s.fibers|);
    forall id
      ensures Load(s.ring.q)[id] <= multiset(ids)[id]
    {
      LoadBounds(s, [], id);
      if id in Named(s, []) {
        NamedOnce(s, [], id);
      }
    }
    SubmultisetSize(Load(s.ring.q), multiset(ids));
  }

  /** Only a placed SQE makes the queues longer, and by one. */
  lemma StepSize(s: State, step: Step)
    requires Enabled(s, step)
    ensures Size(Apply(s, step).ring.q) <= Size(s.ring.q) + 1
  {
    StepRing(s, step);
    if step.Attempt? {
      var f := s.control.fiber;
      PlaceSize(s.ring, s.fibers[f].starved, NextSqe(s, f), s.fibers[f].pc.TryOp?, step.taken);
    }
  }

  lemma {:induction false} SizeBound(states: seq<State>, steps: seq<Step>, n: nat)
    requires IsRun(states, steps) && Init(states[0]) && n <= |steps|
    ensures Size(states[n].ring.q) <= n
  {
    if n > 0 {
      SizeBound(states, steps, n - 1);
      StepSize(states[n - 1], steps[n - 1]);
    }
  }

  /** The count is exact and never underflows in any run, failing checks and lost completions
      included, shorter than what a size_t counts; without failing checks in a run of any length. */
  lemma PendingExact(states: seq<State>, steps: seq<Step>, n: nat)
    requires IsRun(states, steps) && Init(states[0]) && n <= |steps|
    requires n < U64 || (Sound(states, steps) && 2 * |states[n].fibers| < U64)
    ensures states[n].ring.pending == Size(states[n].ring.q)
  {
    PendingConserved(states, steps, n);
    if n < U64 {
      SizeBound(states, steps, n);
    } else {
      InitInv(states[0]);
      RunInv(states, steps, n);
      LoadIsBounded(states[n]);
      LoadSize(states[n].ring.q);
    }
  }

  /** `has_pending` holds while a result is awaited that was not lost. */
  lemma AwaitedIsPending(states: seq<State>, steps: seq<Step>, n: nat, id: SetterId)
    requires IsRun(states, steps) && Init(states[0]) && Sound(states, steps) && n <= |steps|
    requires n < U64 || 2 * |states[n].fibers| < U64
    requires Outstanding(states[n].fibers, states[n].setters, id) && id !in states[n].dropped
    ensures states[n].ring.pending > 0
  {
    InitInv(states[0]);
    RunInv(states, steps, n);
    PendingExact(states, steps, n);
    OutstandingIsQueued(states[n], id);
    LoadSize(states[n].ring.q);
  }

  lemma OutstandingIsQueued(s: State, id: SetterId)
    requires CountInv(s.fibers, s.setters, Named(s, [])) && Outstanding(s.fibers, s.setters, id) && id !in s.dropped
    ensures id in Load(s.ring.q) && |Load(s.ring.q)| > 0
  {
    assert CqeIds([]) == [];
    assert Named(s, [])[id] == Load(s.ring.q)[id] + s.dropped[id];
  }

  /** A parked fiber always waits for some outstanding setter of its own. */
  lemma ParkedAwaits(s: State, f: nat) returns (id: SetterId)
    requires f < |s.fibers| && s.fibers[f].pc.Parked? && FibersInv(s.fibers, s.setters)
    ensures id.fiber == f && Outstanding(s.fibers, s.setters, id)
  {
    id := if ResultOf(s.setters, Id(s.fibers, f, Operation)) == NOT_SET
       then Id(s.fibers, f, Operation) else Id(s.fibers, f, LinkTimeout);
  }

  /** The poller lost none of the fiber's completions. */
  ghost predicate LostNone(s: State, f: nat) {
    forall id :: id in s.dropped ==> id.fiber != f
  }

  /** While a fiber is parked and no completion of its own was lost, `has_pending` says so. */
  lemma ParkedIsPending(states: seq<State>, steps: seq<Step>, n: nat, f: nat)
    requires IsRun(states, steps) && Init(states[0]) && Sound(states, steps) && n <= |steps|
    requires n < U64 || 2 * |states[n].fibers| < U64
    requires f < |states[n].fibers| && states[n].fibers[f].pc.Parked? && LostNone(states[n], f)
    ensures states[n].ring.pending > 0
  {
    InitInv(states[0]);
    RunInv(states, steps, n);
    var id := ParkedAwaits(states[n], f);
    AwaitedIsPending(states, steps, n, id);
  }

  // Draining.

  /** No fiber is inside `Ring::submit` or between the halves of a timed call. */
  ghost predicate Quiet(s: State) {
    forall f :: 0 <= f < |s.fibers| ==> !Trying(s.fibers[f].pc)
  }

  predicate IsSubmit(step: Step) {
    step.Begin? || step.Resume? || step.Attempt?
  }

  /** Steps that move some entry towards its dispatch. */
  predicate IsDrain(s: State, step: Step) {
    step.KernelTake? || step.KernelComplete? || (IsDispatch(step) && s.ring.q.cq != [])
  }

  function Measure(q: Queues): nat {
    3 * |q.visible| + 2 * |q.inflight| + |q.cq|
  }

  lemma FirstIsMember(q: seq<Sqe>)
    ensures q != [] ==> q[0] in q
  {
  }

  lemma QuietIsFlushed(s: State)
    requires Inv(s) && Quiet(s)
    ensures s.ring.q.built == []
  {
    FirstIsMember(s.ring.q.built);
  }

  lemma DrainDecreases(s: State, step: Step)
    requires Enabled(s, step) && !IsSubmit(step)
    ensures IsDrain(s, step) ==> Measure(Apply(s, step).ring.q) < Measure(s.ring.q)
    ensures !IsDrain(s, step) ==> Measure(Apply(s, step).ring.q) == Measure(s.ring.q)
  {
    StepRing(s, step);
  }

  lemma StaysQuiet(s: State, step: Step)
    requires Enabled(s, step) && Quiet(s) && !IsSubmit(step)
    ensures Quiet(Apply(s, step)) && !FailsCheck(s, step)
  {
    if IsDispatch(step) {
      StepNudges(s, step);
    }
  }

  /** As long as something is left in the queues, some step drains it. */
  lemma DrainProgress(s: State) returns (step: Step)
    requires Inv(s) && Quiet(s) && Measure(s.ring.q) > 0
    ensures Enabled(s, step) && IsDrain(s, step)
  {
    if s.ring.q.visible != [] {
      step := KernelTake(|s.ring.q.visible|);
    } else if s.ring.q.inflight != [] {
      step := KernelComplete(0, 0);
    } else if s.control.Waiting? {
      step := WaitOver;
    } else {
      assert s.control == Scheduler;
      step := PollMany;
    }
  }

  ghost function DrainSteps(states: seq<State>, steps: seq<Step>, n: nat): nat
    requires n <= |steps| < |states|
  {
    if n == 0 then 0 else DrainSteps(states, steps, n - 1) + if IsDrain(states[n - 1], steps[n - 1]) then 1 else 0
  }

  /** Once submits stop, at most `Measure` more steps move anything, however the rest interleaves,
      and the queue of built SQEs stays empty. */
  lemma {:induction false} DrainTerminates(states: seq<State>, steps: seq<Step>, n: nat)
    requires IsRun(states, steps) && Inv(states[0]) && Quiet(states[0]) && n <= |steps|
    requires forall i :: 0 <= i < |steps| ==> !IsSubmit(steps[i])
    ensures Inv(states[n]) && Quiet(states[n]) && states[n].ring.q.built == []
    ensures DrainSteps(states, steps, n) + Measure(states[n].ring.q) <= Measure(states[0].ring.q)
  {
    if n > 0 {
      DrainTerminates(states, steps, n - 1);
      StaysQuiet(states[n - 1], steps[n - 1]);
      StepInv(states[n - 1], steps[n - 1]);
      DrainDecreases(states[n - 1], steps[n - 1]);
    }
    QuietIsFlushed(states[n]);
  }

  /** With nothing left in the queues, a fiber is parked exactly if a completion of its own was lost
      during this very call. */
  lemma ParkedIfLost(s: State, f: nat)
    requires Inv(s) && Quiet(s) && Measure(s.ring.q) == 0 && f < |s.fibers|
    ensures s.fibers[f].pc.Parked? <==> !LostNone(s, f)
  {
    QuietIsFlushed(s);
    LoadSize(s.ring.q);
    if s.fibers[f].pc.Parked? {
      var id := ParkedAwaits(s, f);
      if id !in s.dropped {
        OutstandingIsQueued(s, id);
      }
    } else if !LostNone(s, f) {
      var id :| id in s.dropped && id.fiber == f;
      assert id in Named(s, []);
      NamedOnce(s, [], id);
    }
  }

  /** Where no draining step is left, every fiber has been woken except those of which the poller lost
      a completion, and those never will be. */
  lemma DrainedMeansWoken(states: seq<State>, steps: seq<Step>, f: nat)
    requires IsRun(states, steps) && Inv(states[0]) && Quiet(states[0])
    requires forall i :: 0 <= i < |steps| ==> !IsSubmit(steps[i])
    requires f < |states[|steps|].fibers|
    requires forall step :: Enabled(states[|steps|], step) ==> !IsDrain(states[|steps|], step)
    ensures Measure(states[|steps|].ring.q) == 0
    ensures states[|steps|].fibers[f].pc.Woken? || states[|steps|].fibers[f].pc.Idle? <==> LostNone(states[|steps|], f)
  {
    DrainTerminates(states, steps, |steps|);
    var last := states[|steps|];
    if Measure(last.ring.q) > 0 {
      var step := DrainProgress(last);
    }
    ParkedIfLost(last, f);
  }
}
