/** Exactly when the timeout SQE of a timed `ring_submit` follows its operation, and exactly when
    another fiber can get in between. */
module CompletionAdjacency {
  import opened Rings
  import opened Completion
  import opened CompletionInvariant
  import opened CompletionProgress
  import opened CompletionLinks

  // What is in front of the timeout, in any run, failing checks included.

  /** What the kernel sees never ends in a link: only operations link, and they are not flushed. */
  ghost predicate TailUnlinked(q: Queues) {
    q.visible != [] ==> !q.visible[|q.visible| - 1].link
  }

  /** What is built are operations of fibers between the halves of their calls, one of each. */
  ghost predicate BuiltOncePerFiber(fibers: Fibers, built: seq<Sqe>) {
    && BuiltInv(fibers, built)
    && forall i, j :: 0 <= i < j < |built| ==> built[i].data.fiber != built[j].data.fiber
  }

  /** The step obtains a slot. */
  predicate Places(s: State, step: Step) {
    step.Attempt? && Enabled(s, step) && CanGetSqe(s.ring.q)
  }

  lemma TakeTail(q: Queues, k: nat)
    requires TailUnlinked(q)
    ensures TailUnlinked(Take(q, k))
  {
  }

  lemma PlacedQueues(s: State, taken: nat)
    requires Places(s, Attempt(taken))
    ensures var f, q := s.control.fiber, Apply(s, Attempt(taken)).ring.q;
            if s.fibers[f].pc.TryOp? then q == s.ring.q.(built := s.ring.q.built + [NextSqe(s, f)])
            else q == Take(s.ring.q.(built := [], visible := Published(s)), taken)
  {
    var f := s.control.fiber;
    StepRing(s, Attempt(taken));
    FlushShape(s.ring, s.fibers[f].starved, NextSqe(s, f), taken);
  }

  lemma StepTail(s: State, step: Step)
    requires Enabled(s, step) && TailUnlinked(s.ring.q)
    ensures TailUnlinked(Apply(s, step).ring.q)
  {
    StepRing(s, step);
    if Places(s, step) {
      PlacedQueues(s, step.taken);
      if !s.fibers[s.control.fiber].pc.TryOp? {
        TakeTail(s.ring.q.(built := [], visible := Published(s)), step.taken);
      }
    }
  }

  lemma OthersAttempt(s: State, taken: nat, f: nat)
    requires Enabled(s, Attempt(taken)) && f < |s.fibers| && s.control != Running(f)
    ensures f < |Apply(s, Attempt(taken)).fibers| && Apply(s, Attempt(taken)).fibers[f] == s.fibers[f]
  {
  }

  lemma OwnAttempt(s: State, taken: nat, f: nat)
    requires Enabled(s, Attempt(taken)) && s.control == Running(f)
    ensures var t := Apply(s, Attempt(taken));
            && f < |t.fibers| && t.fibers[f].call == s.fibers[f].call
            && (!CanGetSqe(s.ring.q) ==> t.fibers[f].pc == s.fibers[f].pc)
            && (CanGetSqe(s.ring.q) && s.fibers[f].pc.TryOp? ==> t.fibers[f].pc.TryTimeout?)
            && (CanGetSqe(s.ring.q) && !s.fibers[f].pc.TryOp? ==> t.fibers[f].pc.Parked? || t.fibers[f].pc.Failed?)
  {
    if CanGetSqe(s.ring.q) {
      PlaceShape(s, taken);
    } else {
      assert Apply(s, Attempt(taken)).fibers == s.fibers[f := s.fibers[f].(starved := true)];
    }
  }

  lemma StepAttempt(s: State, taken: nat, f: nat)
    requires Enabled(s, Attempt(taken)) && f < |s.fibers|
    ensures var t := Apply(s, Attempt(taken));
            && f < |t.fibers| && t.fibers[f].call == s.fibers[f].call
            && (s.control != Running(f) || !CanGetSqe(s.ring.q) ==> t.fibers[f].pc == s.fibers[f].pc)
  {
    if s.control == Running(f) {
      OwnAttempt(s, taken, f);
    } else {
      OthersAttempt(s, taken, f);
    }
  }

  /** What a step does to a fiber that waits for its timeout's slot: nothing, unless it is this very
      fiber that gets one. */
  lemma StepHalfPlaced(s: State, step: Step, f: nat)
    requires Enabled(s, step) && f < |s.fibers| && s.fibers[f].pc.TryTimeout?
    ensures f < |Apply(s, step).fibers| && Apply(s, step).fibers[f].call == s.fibers[f].call
    ensures Apply(s, step).fibers[f].pc.TryTimeout? <==> !(Places(s, step) && s.control == Running(f))
  {
    if IsDispatch(step) {
      StepNudges(s, step);
    } else if step.Attempt? {
      StepAttempt(s, step.taken, f);
      if s.control == Running(f) {
        OwnAttempt(s, step.taken, f);
      }
    }
  }

  lemma StepBuilt(s: State, step: Step)
    requires Enabled(s, step) && BuiltOncePerFiber(s.fibers, s.ring.q.built)
    ensures BuiltOncePerFiber(Apply(s, step).fibers, Apply(s, step).ring.q.built)
  {
    var t := Apply(s, step);
    StepRing(s, step);
    if Places(s, step) {
      PlacedQueues(s, step.taken);
    }
    forall b | b in s.ring.q.built && !(Places(s, step) && s.control == Running(b.data.fiber))
      ensures b.data.fiber < |t.fibers| && t.fibers[b.data.fiber].pc.TryTimeout?
      ensures t.fibers[b.data.fiber].call == s.fibers[b.data.fiber].call
    {
      StepHalfPlaced(s, step, b.data.fiber);
    }
  }

  lemma {:induction false} RunBuilt(states: seq<State>, steps: seq<Step>, n: nat)
    requires IsRun(states, steps) && Init(states[0]) && n <= |steps|
    ensures BuiltOncePerFiber(states[n].fibers, states[n].ring.q.built) && TailUnlinked(states[n].ring.q)
  {
    if n > 0 {
      RunBuilt(states, steps, n - 1);
      StepBuilt(states[n - 1], steps[n - 1]);
      StepTail(states[n - 1], steps[n - 1]);
    }
  }

  /** The entry right in front of the SQE that the running fiber places now, if any. */
  ghost predicate Precedes(s: State, sqe: Sqe)
    requires s.control.Running? && s.control.fiber < |s.fibers|
  {
    var p := Published(s);
    |p| >= 2 && p[|p| - 2] == sqe
  }

  /** The operation was the last thing built. */
  ghost predicate OwnLast(s: State, f: nat) {
    var b := s.ring.q.built;
    f < |s.fibers| && b != [] && b[|b| - 1] == Sqe(Id(s.fibers, f, Operation), true)
  }

  ghost predicate CheckCanFail(s: State) {
    exists taken :: Enabled(s, Attempt(taken)) && FailsCheck(s, Attempt(taken))
  }

  /** When the timeout gets its slot there are three cases, told apart by what is unflushed. If the last
      thing built is the call's own operation, the timeout follows that. If it is something else, it is
      the operation of another fiber, which the timeout then guards instead, and no check notices. If
      nothing is built, the timeout goes out behind no link and the check can fail. */
  lemma SecondAttemptExactly(states: seq<State>, steps: seq<Step>, n: nat, f: nat)
    requires IsRun(states, steps) && Init(states[0]) && n <= |steps|
    requires states[n].control == Running(f) && f < |states[n].fibers|
    requires states[n].fibers[f].pc.TryTimeout? && CanGetSqe(states[n].ring.q)
    ensures var s := states[n];
            && (Precedes(s, Sqe(Id(s.fibers, f, Operation), true)) <==> OwnLast(s, f))
            && ((exists g :: 0 <= g < |s.fibers| && g != f && Precedes(s, Sqe(Id(s.fibers, g, Operation), true))) <==>
                s.ring.q.built != [] && !OwnLast(s, f))
            && (CheckCanFail(s) <==> s.ring.q.built == [])
  {
    var s := states[n];
    RunBuilt(states, steps, n);
    CheckCanFailExactly(s, f);
    var b := s.ring.q.built;
    if b != [] {
      LastIsMember(b);
      var g := b[|b| - 1].data.fiber;
      assert Precedes(s, Sqe(Id(s.fibers, g, Operation), true));
    }
  }

  // Staying in one call.

  /** The fiber waits for its timeout's slot in the given call. */
  ghost predicate HalfPlacedIn(s: State, f: nat, call: nat) {
    f < |s.fibers| && s.fibers[f].call == call && s.fibers[f].pc.TryTimeout?
  }

  /** Both halves of that call were placed, if ever. */
  ghost predicate Past(s: State, f: nat, call: nat) {
    && f < |s.fibers|
    && (s.fibers[f].call > call ||
        (s.fibers[f].call == call && (s.fibers[f].pc.Parked? || s.fibers[f].pc.Woken? || s.fibers[f].pc.Failed?)))
  }

  lemma StepPast(s: State, step: Step, f: nat, call: nat)
    requires Enabled(s, step) && Past(s, f, call)
    ensures Past(Apply(s, step), f, call)
  {
    if IsDispatch(step) {
      StepNudges(s, step);
    } else if step.Attempt? {
      StepAttempt(s, step.taken, f);
    }
  }

  lemma {:induction false} PastForGood(states: seq<State>, steps: seq<Step>, m: nat, n: nat, f: nat, call: nat)
    requires IsRun(states, steps) && m <= n <= |steps| && Past(states[m], f, call)
    ensures Past(states[n], f, call)
    decreases n
  {
    if m < n {
      PastForGood(states, steps, m, n - 1, f, call);
      StepPast(states[n - 1], steps[n - 1], f, call);
    }
  }

  lemma StepHalfOrPast(s: State, step: Step, f: nat, call: nat)
    requires Enabled(s, step) && (HalfPlacedIn(s, f, call) || Past(s, f, call))
    ensures HalfPlacedIn(Apply(s, step), f, call) || Past(Apply(s, step), f, call)
  {
    if Past(s, f, call) {
      StepPast(s, step, f, call);
    } else {
      StepHalfPlaced(s, step, f);
      if Places(s, step) && s.control == Running(f) {
        OwnAttempt(s, step.taken, f);
      }
    }
  }

  lemma {:induction false} HalfOrPast(states: seq<State>, steps: seq<Step>, m: nat, n: nat, f: nat, call: nat)
    requires IsRun(states, steps) && m <= n <= |steps| && HalfPlacedIn(states[m], f, call)
    ensures HalfPlacedIn(states[n], f, call) || Past(states[n], f, call)
    decreases n
  {
    if m < n {
      HalfOrPast(states, steps, m, n - 1, f, call);
      StepHalfOrPast(states[n - 1], steps[n - 1], f, call);
    }
  }

  /** There is no way back: between two states in which the call is half placed it always is. */
  lemma HalfPlacedBetween(states: seq<State>, steps: seq<Step>, m: nat, i: nat, n: nat, f: nat, call: nat)
    requires IsRun(states, steps) && m <= i <= n <= |steps|
    requires HalfPlacedIn(states[m], f, call) && HalfPlacedIn(states[n], f, call)
    ensures HalfPlacedIn(states[i], f, call)
  {
    HalfOrPast(states, steps, m, i, f, call);
    if Past(states[i], f, call) {
      PastForGood(states, steps, i, n, f, call);
    }
  }

  lemma StepOwnLast(s: State, step: Step, f: nat, call: nat)
    requires Enabled(s, step) && HalfPlacedIn(s, f, call) && HalfPlacedIn(Apply(s, step), f, call)
    ensures OwnLast(Apply(s, step), f) <==> OwnLast(s, f) && !Places(s, step)
  {
    StepHalfPlaced(s, step, f);
    StepRing(s, step);
    if Places(s, step) {
      PlacedQueues(s, step.taken);
    }
  }

  /** The pairs of states in which f is between the halves of the same call, before and after a step. */
  ghost predicate HalfPlacedStep(s: State, step: Step, t: State, f: nat, call: nat) {
    Enabled(s, step) && t == Apply(s, step) && HalfPlacedIn(s, f, call) && HalfPlacedIn(t, f, call)
  }

  lemma OwnLastNext(s: State, step: Step, t: State, f: nat, call: nat)
    requires HalfPlacedStep(s, step, t, f, call)
    ensures OwnLast(t, f) <==> OwnLast(s, f) && !Places(s, step)
  {
    StepOwnLast(s, step, f, call);
  }

  lemma HalfPlacedAt(states: seq<State>, steps: seq<Step>, m: nat, i: nat, n: nat, f: nat, call: nat)
    requires IsRun(states, steps) && m <= i < n <= |steps|
    requires HalfPlacedIn(states[m], f, call) && HalfPlacedIn(states[n], f, call)
    ensures HalfPlacedStep(states[i], steps[i], states[i + 1], f, call)
  {
    HalfPlacedBetween(states, steps, m, i, n, f, call);
    HalfPlacedBetween(states, steps, m, i + 1, n, f, call);
  }

  lemma {:induction false} OwnLastAlong(states: seq<State>, steps: seq<Step>, m: nat, n: nat, f: nat, call: nat)
    requires m <= n <= |steps| < |states|
    requires forall i :: m <= i < n ==> HalfPlacedStep(states[i], steps[i], states[i + 1], f, call)
    ensures OwnLast(states[n], f) <==> OwnLast(states[m], f) && forall i :: m <= i < n ==> !Places(states[i], steps[i])
    decreases n
  {
    if m < n {
      OwnLastAlong(states, steps, m, n - 1, f, call);
      assert HalfPlacedStep(states[n - 1], steps[n - 1], states[n - 1 + 1], f, call);
      OwnLastNext(states[n - 1], steps[n - 1], states[n], f, call);
    }
  }

  lemma OperationPlaced(s: State, step: Step, f: nat)
    requires f < |s.fibers| && s.control == Running(f) && s.fibers[f].pc.TryOp? && Places(s, step)
    ensures HalfPlacedIn(Apply(s, step), f, s.fibers[f].call) && OwnLast(Apply(s, step), f)
  {
    PlacedQueues(s, step.taken);
  }

  /** Over a whole run: the timeout follows its own operation if and only if nobody got a slot between
      the steps that placed the two. */
  lemma AdjacentIffUndisturbed(states: seq<State>, steps: seq<Step>, m: nat, n: nat, f: nat)
    requires IsRun(states, steps) && Init(states[0]) && m < n <= |steps|
    requires f < |states[m].fibers| && states[m].control == Running(f) && states[m].fibers[f].pc.TryOp?
    requires Places(states[m], steps[m])
    requires states[n].control == Running(f) && HalfPlacedIn(states[n], f, states[m].fibers[f].call)
    requires CanGetSqe(states[n].ring.q)
    ensures Precedes(states[n], Sqe(Id(states[n].fibers, f, Operation), true)) <==>
            forall i :: m < i < n ==> !Places(states[i], steps[i])
  {
    var call := states[m].fibers[f].call;
    OperationPlaced(states[m], steps[m], f);
    SecondAttemptExactly(states, steps, n, f);
    forall i | m + 1 <= i < n
      ensures HalfPlacedStep(states[i], steps[i], states[i + 1], f, call)
    {
      HalfPlacedAt(states, steps, m + 1, i, n, f, call);
    }
    OwnLastAlong(states, steps, m + 1, n, f, call);
  }
}
