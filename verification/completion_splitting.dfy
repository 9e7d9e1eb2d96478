/** From which states another fiber's SQE can land between an operation and its timeout. */
module CompletionSplitting {
  import opened Rings
  import opened Completion
  import opened CompletionInvariant
  import opened CompletionProgress
  import opened CompletionLinks
  import opened CompletionRuns
  import opened CompletionAdjacency

  /** In that call of f the operation is the last thing built, its timeout is not placed, and another
      fiber is about to place an SQE right behind the operation. */
  ghost predicate AboutToSplit(u: State, f: nat, call: nat) {
    && HalfPlacedIn(u, f, call) && OwnLast(u, f) && CanGetSqe(u.ring.q)
    && u.control.Running? && u.control.fiber != f && u.control.fiber < |u.fibers|
    && Trying(u.fibers[u.control.fiber].pc)
  }

  /** The fiber can never submit again: it is parked and one of its completions was lost. */
  ghost predicate Stuck(s: State, g: nat) {
    g < |s.fibers| && s.fibers[g].pc.Parked? && !LostNone(s, g)
  }

  ghost predicate SomeoneElse(s: State, f: nat) {
    exists g: nat :: g < |s.fibers| && g != f && !Stuck(s, g)
  }

  ghost predicate Splittable(s: State, f: nat, call: nat) {
    exists u :: Leads(s, u) && AboutToSplit(u, f, call)
  }

  // When it cannot happen.

  lemma RoomPreventsSplit(states: seq<State>, steps: seq<Step>, f: nat)
    requires IsRun(states, steps)
    requires f < |states[0].fibers| && states[0].control == Running(f) && states[0].fibers[f].pc.TryOp?
    requires FreeSlots(states[0].ring.q) >= 2
    ensures !AboutToSplit(states[|steps|], f, states[0].fibers[f].call)
  {
    var call := states[0].fibers[f].call;
    var m := LinkAdjacency(states, steps, f, |steps|);
    CallWhilePlacing(states, steps, f, m);
    if m < |steps| {
      assert PlacingBoth(states[m], f) && PlacesLinkedPair(states[m], steps[m], f);
      PairIsPast(states[m], steps[m], f);
      PastForGood(states, steps, m + 1, |steps|, f, call);
    }
  }

  lemma PairIsPast(s: State, step: Step, f: nat)
    requires f < |s.fibers| && PlacesLinkedPair(s, step, f)
    ensures Past(Apply(s, step), f, s.fibers[f].call)
  {
    RunningAlone(s, step, f);
  }

  lemma StepWhilePlacing(s: State, step: Step, f: nat)
    requires Enabled(s, step) && s.control == Running(f) && f < |s.fibers|
    ensures f < |Apply(s, step).fibers| && Apply(s, step).fibers[f].call == s.fibers[f].call
  {
    if step.Attempt? {
      StepAttempt(s, step.taken, f);
    }
  }

  lemma {:induction false} CallWhilePlacing(states: seq<State>, steps: seq<Step>, f: nat, m: nat)
    requires IsRun(states, steps) && m <= |steps| && f < |states[0].fibers|
    requires forall i :: 0 <= i <= m ==> PlacingBoth(states[i], f)
    ensures f < |states[m].fibers| && states[m].fibers[f].call == states[0].fibers[f].call
  {
    if m > 0 {
      CallWhilePlacing(states, steps, f, m - 1);
      StepWhilePlacing(states[m - 1], steps[m - 1], f);
    }
  }

  /** The operation takes the last entry that is not built, or did so. */
  ghost predicate Clogging(s: State, f: nat) {
    || Clogged(s.ring.q)
    || (f < |s.fibers| && s.control == Running(f) && s.fibers[f].pc.TryOp?
        && s.ring.q.visible == [] && FreeSlots(s.ring.q) == 1)
  }

  lemma StepClogging(s: State, step: Step, f: nat)
    requires Enabled(s, step) && Clogging(s, f)
    ensures Clogging(Apply(s, step), f)
  {
    StepRing(s, step);
    if Clogged(s.ring.q) {
      CloggedStep(s, step);
    } else if Places(s, step) {
      PlacedQueues(s, step.taken);
    }
  }

  lemma {:induction false} CloggingPreventsSplit(states: seq<State>, steps: seq<Step>, n: nat, f: nat, call: nat)
    requires IsRun(states, steps) && n <= |steps| && Clogging(states[0], f)
    ensures Clogging(states[n], f) && !AboutToSplit(states[n], f, call)
  {
    if n > 0 {
      CloggingPreventsSplit(states, steps, n - 1, f, call);
      StepClogging(states[n - 1], steps[n - 1], f);
    }
  }

  /** Everybody else is stuck, and then f is never disturbed between two halves. */
  ghost predicate Alone(s: State, f: nat) {
    && Inv(s) && f < |s.fibers| && (forall g: nat :: g < |s.fibers| && g != f ==> Stuck(s, g))
    && (s.fibers[f].pc.TryTimeout? ==> OwnLast(s, f))
  }

  /** The fiber's lost completion is one it still waits for, so it has not been woken. */
  lemma LostIsAsleep(t: State, g: nat, id: SetterId)
    requires Inv(t) && id in t.dropped && id.fiber == g
    ensures g < |t.fibers| && !t.fibers[g].pc.Woken?
  {
    assert id in Named(t, []);
    NamedOnce(t, [], id);
  }

  lemma StuckStays(s: State, step: Step, g: nat)
    requires Inv(s) && Enabled(s, step) && !FailsCheck(s, step) && Stuck(s, g)
    ensures Stuck(Apply(s, step), g)
  {
    var id :| id in s.dropped && id.fiber == g;
    StepInv(s, step);
    StepDropped(s, step);
    LostIsAsleep(Apply(s, step), g, id);
    StepParked(s, step, g);
  }

  /** A parked fiber stays as it is or is woken. */
  lemma StepParked(s: State, step: Step, g: nat)
    requires Enabled(s, step) && g < |s.fibers| && s.fibers[g].pc.Parked?
    ensures g < |Apply(s, step).fibers| && Nudged(s.fibers[g], Apply(s, step).fibers[g])
  {
    if IsDispatch(step) {
      StepNudges(s, step);
    } else if step.Attempt? {
      OthersAttempt(s, step.taken, g);
    }
  }

  lemma OnlyOneRuns(s: State, f: nat)
    requires Alone(s, f) && s.control.Running?
    ensures s.control.fiber == f
  {
    var g := s.control.fiber;
    assert g < |s.fibers| && (g != f ==> Stuck(s, g));
  }

  lemma AlonePasses(s: State, step: Step, f: nat)
    requires Alone(s, f) && Enabled(s, step)
    ensures !FailsCheck(s, step)
  {
    if s.control.Running? {
      OnlyOneRuns(s, f);
    }
  }

  lemma AloneKeepsOwnLast(s: State, step: Step, f: nat)
    requires Alone(s, f) && Enabled(s, step)
    ensures f < |Apply(s, step).fibers|
    ensures Apply(s, step).fibers[f].pc.TryTimeout? ==> OwnLast(Apply(s, step), f)
  {
    SameFibers(s, step);
    if Apply(s, step).fibers[f].pc.TryTimeout? {
      if s.fibers[f].pc.TryTimeout? {
        StepHalfPlaced(s, step, f);
        if s.control.Running? {
          OnlyOneRuns(s, f);
        }
        StepOwnLast(s, step, f, s.fibers[f].call);
      } else {
        OnlyPlacingHalves(s, step, f);
        OperationPlaced(s, step, f);
      }
    }
  }

  lemma OnlyPlacingHalves(s: State, step: Step, f: nat)
    requires Enabled(s, step) && f < |s.fibers| && f < |Apply(s, step).fibers|
    requires !s.fibers[f].pc.TryTimeout? && Apply(s, step).fibers[f].pc.TryTimeout?
    ensures Places(s, step) && s.control == Running(f) && s.fibers[f].pc.TryOp?
  {
    if IsDispatch(step) {
      StepNudges(s, step);
    }
  }

  lemma StepAlone(s: State, step: Step, f: nat)
    requires Alone(s, f) && Enabled(s, step)
    ensures Alone(Apply(s, step), f)
  {
    var t := Apply(s, step);
    AlonePasses(s, step, f);
    StepInv(s, step);
    SameFibers(s, step);
    forall g: nat | g < |t.fibers| && g != f
      ensures Stuck(t, g)
    {
      StuckStays(s, step, g);
    }
    AloneKeepsOwnLast(s, step, f);
  }

  lemma {:induction false} AlonePreventsSplit(states: seq<State>, steps: seq<Step>, n: nat, f: nat, call: nat)
    requires IsRun(states, steps) && n <= |steps| && Alone(states[0], f)
    ensures Alone(states[n], f) && !AboutToSplit(states[n], f, call)
  {
    if n > 0 {
      AlonePreventsSplit(states, steps, n - 1, f, call);
      StepAlone(states[n - 1], steps[n - 1], f);
    }
    NotAboutTo(states[n], f, call);
  }

  lemma NotAboutTo(s: State, f: nat, call: nat)
    requires Alone(s, f)
    ensures !AboutToSplit(s, f, call)
  {
    if s.control.Running? {
      OnlyOneRuns(s, f);
    }
  }

  // When it can: the run that does it.

  /** Both SQEs of f's call are not placed yet, and from here on only kernel and poller act. */
  ghost predicate Settling(s: State, t: State, f: nat, call: nat) {
    && Inv(t) && t.control == Scheduler && HalfPlacedIn(t, f, call) && OwnLast(t, f)
    && t.ring.q.entries == s.ring.q.entries && t.ring.q.built == s.ring.q.built && t.dropped == s.dropped
    && AllNudged(s.fibers, t.fibers)
  }

  lemma NudgedTwice(a: Fibers, b: Fibers, c: Fibers)
    requires AllNudged(a, b) && AllNudged(b, c)
    ensures AllNudged(a, c)
  {
  }

  lemma SettleQueues(t: State, step: Step)
    requires Enabled(t, step) && t.control == Scheduler
    requires step.KernelTake? || step.KernelComplete? || step.PollMany?
    ensures var u := Apply(t, step);
            && u.control == Scheduler && u.dropped == t.dropped && AllNudged(t.fibers, u.fibers)
            && u.ring.q.entries == t.ring.q.entries && u.ring.q.built == t.ring.q.built
  {
    StepRing(t, step);
    StepDropped(t, step);
    if step.PollMany? {
      StepNudges(t, step);
      var k := Clip(BATCH, |t.ring.q.cq|);
      DeliverAllRing(t.(ring := Reap(t.ring, k)), t.ring.q.cq[..k]);
    }
  }

  /** One step of kernel or poller. */
  lemma SettleStep(origin: State, s: State, t: State, step: Step, f: nat, call: nat) returns (u: State)
    requires Leads(origin, t) && Settling(s, t, f, call) && Enabled(t, step)
    requires step.KernelTake? || step.KernelComplete? || step.PollMany?
    ensures u == Apply(t, step) && Leads(origin, u) && Settling(s, u, f, call)
  {
    SettleQueues(t, step);
    StepInv(t, step);
    u := Go(origin, t, step);
    assert Nudged(t.fibers[f], u.fibers[f]);
    NudgedTwice(s.fibers, t.fibers, u.fibers);
  }

  lemma {:induction false} CompleteAll(origin: State, s: State, t: State, f: nat, call: nat) returns (u: State)
    requires Leads(origin, t) && Settling(s, t, f, call) && t.ring.q.visible == []
    ensures Leads(origin, u) && Settling(s, u, f, call) && u.ring.q.visible == [] && u.ring.q.inflight == []
    decreases |t.ring.q.inflight|
  {
    if t.ring.q.inflight == [] {
      u := t;
    } else {
      u := SettleStep(origin, s, t, KernelComplete(0, 0), f, call);
      u := CompleteAll(origin, s, u, f, call);
    }
  }

  lemma {:induction false} ReapAll(origin: State, s: State, t: State, f: nat, call: nat) returns (u: State)
    requires Leads(origin, t) && Settling(s, t, f, call) && t.ring.q.visible == [] && t.ring.q.inflight == []
    ensures Leads(origin, u) && Settling(s, u, f, call)
    ensures u.ring.q.visible == [] && u.ring.q.inflight == [] && u.ring.q.cq == []
    decreases |t.ring.q.cq|
  {
    if t.ring.q.cq == [] {
      u := t;
    } else {
      StepRing(t, PollMany);
      u := SettleStep(origin, s, t, PollMany, f, call);
      u := ReapAll(origin, s, u, f, call);
    }
  }

  /** Kernel and poller empty all queues but the built one. */
  lemma Settle(origin: State, s: State, f: nat, call: nat) returns (u: State)
    requires Leads(origin, s) && Settling(s, s, f, call)
    ensures Leads(origin, u) && Settling(s, u, f, call)
    ensures u.ring.q.visible == [] && u.ring.q.inflight == [] && u.ring.q.cq == []
  {
    u := s;
    if s.ring.q.visible != [] {
      StepRing(s, KernelTake(|s.ring.q.visible|));
      u := SettleStep(origin, s, s, KernelTake(|s.ring.q.visible|), f, call);
    }
    u := CompleteAll(origin, s, u, f, call);
    u := ReapAll(origin, s, u, f, call);
  }

  lemma BuiltIsHalfPlaced(s: State, id: SetterId)
    requires BuiltInv(s.fibers, s.ring.q.built) && id in multiset(SqeIds(s.ring.q.built))
    ensures id.fiber < |s.fibers| && s.fibers[id.fiber].pc.TryTimeout?
  {
    var i :| 0 <= i < |s.ring.q.built| && SqeIds(s.ring.q.built)[i] == id;
    assert s.ring.q.built[i] in s.ring.q.built;
  }

  /** With nothing in flight or completed, a parked fiber that lost nothing has an SQE in front of the
      kernel. */
  lemma ParkedIsVisible(s: State, f: nat) returns (i: nat)
    requires Inv(s) && s.ring.q.inflight == [] && s.ring.q.cq == []
    requires f < |s.fibers| && s.fibers[f].pc.Parked? && LostNone(s, f)
    ensures i < |s.ring.q.visible| && s.ring.q.visible[i].data.fiber == f
  {
    var id := ParkedAwaits(s, f);
    OutstandingIsQueued(s, id);
    assert CqeIds([]) == [];
    assert id !in multiset(SqeIds(s.ring.q.built)) by {
      if id in multiset(SqeIds(s.ring.q.built)) {
        BuiltIsHalfPlaced(s, id);
      }
    }
    assert id in multiset(SqeIds(s.ring.q.visible));
    i :| 0 <= i < |s.ring.q.visible| && SqeIds(s.ring.q.visible)[i] == id;
  }

  /** Then only fibers with a lost completion are parked. */
  lemma SettledIsAwake(s: State, g: nat)
    requires Inv(s) && s.ring.q.visible == [] && s.ring.q.inflight == [] && s.ring.q.cq == []
    requires g < |s.fibers| && !Stuck(s, g)
    ensures !s.fibers[g].pc.Parked?
  {
    if s.fibers[g].pc.Parked? {
      var i := ParkedIsVisible(s, g);
    }
  }

  /** Only fiber f moved. */
  ghost predicate OnlyMoved(s: State, t: State, f: nat) {
    && f < |s.fibers| && |t.fibers| == |s.fibers| && t.dropped == s.dropped
    && forall g :: 0 <= g < |s.fibers| && g != f ==> t.fibers[g] == s.fibers[g]
  }

  lemma BeginFrame(s: State, f: nat, timed: bool)
    requires Enabled(s, Begin(f, timed))
    ensures var t := BeginCall(s, f, timed);
            && OnlyMoved(s, t, f) && t.ring == s.ring && t.control == Running(f)
            && t.fibers[f] == Fiber(s.fibers[f].call, if timed then TryOp else TryPlain, false)
  {
  }

  lemma StartCall(start: State, s: State, f: nat, timed: bool) returns (t: State)
    requires Leads(start, s) && Inv(s) && s.control == Scheduler && f < |s.fibers| && s.fibers[f].pc.Idle?
    ensures Leads(start, t) && Inv(t) && OnlyMoved(s, t, f) && t.ring == s.ring && t.control == Running(f)
    ensures t.fibers[f].pc == if timed then TryOp else TryPlain
  {
    BeginInv(s, f, timed);
    BeginFrame(s, f, timed);
    t := Go(start, s, Begin(f, timed));
  }

  lemma FinishFrame(s: State, f: nat)
    requires Enabled(s, Finish(f))
    ensures var t := FinishCall(s, f);
            && OnlyMoved(s, t, f) && t.ring == s.ring && t.control == s.control
            && t.fibers[f] == Fiber(s.fibers[f].call + 1, Idle, false)
  {
  }

  lemma FinishOne(start: State, s: State, f: nat) returns (t: State)
    requires Leads(start, s) && Inv(s) && s.control == Scheduler && f < |s.fibers| && s.fibers[f].pc.Woken?
    ensures Leads(start, t) && Inv(t) && OnlyMoved(s, t, f) && t.ring == s.ring && t.control == Scheduler
    ensures t.fibers[f].pc.Idle?
  {
    FinishInv(s, f);
    FinishFrame(s, f);
    t := Go(start, s, Finish(f));
  }

  /** Gets a fiber that is not parked to the point where it asks for a slot. */
  lemma ToSubmit(origin: State, s: State, g: nat) returns (u: State)
    requires Leads(origin, s) && Inv(s) && s.control == Scheduler && g < |s.fibers| && !s.fibers[g].pc.Parked?
    ensures Leads(origin, u) && Inv(u) && u.control == Running(g) && u.ring == s.ring && OnlyMoved(s, u, g)
    ensures Trying(u.fibers[g].pc) && (s.fibers[g].pc.Woken? || s.fibers[g].pc.Idle? ==> u.fibers[g].pc.TryPlain?)
  {
    if s.fibers[g].pc.Woken? {
      var idle := FinishOne(origin, s, g);
      u := StartCall(origin, idle, g, false);
    } else if s.fibers[g].pc.Idle? {
      u := StartCall(origin, s, g, false);
    } else {
      StepInv(s, Resume(g));
      u := Go(origin, s, Resume(g));
    }
  }

  /** With one free slot and something the kernel can still take, any other fiber that is not stuck can
      get in between. */
  lemma SplitBy(origin: State, s: State, f: nat, g: nat) returns (u: State)
    requires Leads(origin, s) && Inv(s) && s.control == Running(f) && f < |s.fibers| && s.fibers[f].pc.TryOp?
    requires FreeSlots(s.ring.q) == 1 && s.ring.q.visible != [] && g < |s.fibers| && g != f && !Stuck(s, g)
    ensures Leads(origin, u) && Inv(u) && AboutToSplit(u, f, s.fibers[f].call) && u.control == Running(g)
    ensures |u.fibers| == |s.fibers| && u.ring.q.visible == []
    ensures s.fibers[g].pc.Parked? ==> u.fibers[g].pc.TryPlain?
  {
    var call := s.fibers[f].call;
    var placed := OperationThenStarve(origin, s, f);
    u := Settle(origin, placed, f, call);
    assert Nudged(placed.fibers[g], u.fibers[g]);
    assert !Stuck(u, g) by {
      assert Stuck(u, g) ==> Stuck(s, g);
    }
    SettledIsAwake(u, g);
    u := ToSubmit(origin, u, g);
  }

  lemma OperationThenStarve(origin: State, s: State, f: nat) returns (u: State)
    requires Leads(origin, s) && Inv(s) && s.control == Running(f) && f < |s.fibers| && s.fibers[f].pc.TryOp?
    requires FreeSlots(s.ring.q) == 1
    ensures Leads(origin, u) && Settling(u, u, f, s.fibers[f].call)
    ensures u.ring.q == s.ring.q.(built := s.ring.q.built + [NextSqe(s, f)]) && u.dropped == s.dropped
    ensures |u.fibers| == |s.fibers| && forall h :: 0 <= h < |s.fibers| && h != f ==> u.fibers[h] == s.fibers[h]
  {
    StepInv(s, Attempt(0));
    OperationPlaced(s, Attempt(0), f);
    PlacedQueues(s, 0);
    u := Go(origin, s, Attempt(0));
    StepInv(u, Attempt(0));
    u := Go(origin, u, Attempt(0));
  }

  /** When the operation of a timed call gets its slot, another fiber's SQE can land between it and its
      timeout if and only if that slot is the last one, the kernel can still free one, and some other
      fiber can submit. */
  lemma SplittableExactly(s: State, f: nat)
    requires Inv(s) && s.control == Running(f) && f < |s.fibers| && s.fibers[f].pc.TryOp? && CanGetSqe(s.ring.q)
    ensures Splittable(s, f, s.fibers[f].call) <==>
            FreeSlots(s.ring.q) == 1 && s.ring.q.visible != [] && SomeoneElse(s, f)
  {
    var call := s.fibers[f].call;
    if FreeSlots(s.ring.q) == 1 && s.ring.q.visible != [] && SomeoneElse(s, f) {
      var g: nat :| g < |s.fibers| && g != f && !Stuck(s, g);
      LeadsNowhere(s);
      var u := SplitBy(s, s, f, g);
    } else {
      forall u | Leads(s, u)
        ensures !AboutToSplit(u, f, call)
      {
        var states, steps :| RunBetween(states, steps, s, u);
        if FreeSlots(s.ring.q) >= 2 {
          RoomPreventsSplit(states, steps, f);
        } else if s.ring.q.visible == [] {
          CloggingPreventsSplit(states, steps, |steps|, f, call);
        } else {
          AlonePreventsSplit(states, steps, |steps|, f, call);
        }
      }
    }
  }
}
