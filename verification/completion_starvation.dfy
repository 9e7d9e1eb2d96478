/** What the starvation counters of the ring count, over every run. */
module CompletionStarvation {
  import opened Rings
  import opened Completion
  import opened CompletionProgress
  import opened CompletionAdjacency

  /** The fiber asks for an SQE and finds no slot. */
  predicate FindsNone(s: State, step: Step, f: nat) {
    step.Attempt? && Enabled(s, step) && s.control == Running(f) && !CanGetSqe(s.ring.q)
  }

  /** How far a fiber is within a call. */
  function Stage(pc: Pc): nat {
    match pc
    case Idle => 0
    case TryPlain => 1
    case TryOp => 1
    case TryTimeout => 2
    case _ => 3
  }

  predicate SameRequest(a: Fiber, b: Fiber) {
    a.call == b.call && a.pc == b.pc
  }

  predicate NotBefore(a: Fiber, b: Fiber) {
    a.call < b.call || (a.call == b.call && Stage(a.pc) <= Stage(b.pc))
  }

  /** A step leaves a fiber with its request and its flag, sets the flag, or moves it on to a request for
      which it has not starved yet. */
  ghost predicate Moves(a: Fiber, b: Fiber, findsNone: bool) {
    && NotBefore(a, b)
    && (findsNone ==> SameRequest(a, b) && b.starved)
    && (!findsNone && SameRequest(a, b) && Trying(a.pc) ==> b.starved == a.starved)
    && (Trying(b.pc) && !SameRequest(a, b) ==> !b.starved && !NotBefore(b, a))
  }

  lemma AttemptMoves(s: State, taken: nat, f: nat)
    requires Enabled(s, Attempt(taken)) && f < |s.fibers|
    ensures f < |Apply(s, Attempt(taken)).fibers|
    ensures Moves(s.fibers[f], Apply(s, Attempt(taken)).fibers[f], FindsNone(s, Attempt(taken), f))
  {
    if s.control != Running(f) {
      OthersAttempt(s, taken, f);
    } else if CanGetSqe(s.ring.q) {
      PlacedMoves(s, taken, f);
    }
  }

  lemma PlacedMoves(s: State, taken: nat, f: nat)
    requires Enabled(s, Attempt(taken)) && CanGetSqe(s.ring.q) && s.control == Running(f)
    ensures f < |Apply(s, Attempt(taken)).fibers|
    ensures Moves(s.fibers[f], Apply(s, Attempt(taken)).fibers[f], false)
  {
    OwnAttempt(s, taken, f);
  }

  lemma StepMoves(s: State, step: Step, f: nat)
    requires Enabled(s, step) && f < |s.fibers|
    ensures f < |Apply(s, step).fibers| && Moves(s.fibers[f], Apply(s, step).fibers[f], FindsNone(s, step, f))
  {
    if IsDispatch(step) {
      StepNudges(s, step);
    } else if step.Attempt? {
      AttemptMoves(s, step.taken, f);
    }
  }

  lemma {:induction false} NeverBack(states: seq<State>, steps: seq<Step>, m: nat, n: nat, f: nat)
    requires IsRun(states, steps) && m <= n <= |steps| && f < |states[m].fibers|
    ensures f < |states[n].fibers| && NotBefore(states[m].fibers[f], states[n].fibers[f])
    decreases n
  {
    if m < n {
      NeverBack(states, steps, m, n - 1, f);
      StepMoves(states[n - 1], steps[n - 1], f);
    }
  }

  /** In step i the fiber found no slot for the very SQE that `now` asks for. */
  ghost predicate FoundNone(s: State, step: Step, f: nat, now: Fiber) {
    f < |s.fibers| && FindsNone(s, step, f) && SameRequest(s.fibers[f], now)
  }

  ghost predicate HasStarved(states: seq<State>, steps: seq<Step>, n: nat, f: nat)
    requires n <= |steps| < |states| && f < |states[n].fibers|
  {
    exists i :: 0 <= i < n && FoundNone(states[i], steps[i], f, states[n].fibers[f])
  }

  lemma StarvedNext(states: seq<State>, steps: seq<Step>, n: nat, f: nat)
    requires IsRun(states, steps) && n < |steps| && f < |states[n].fibers|
    requires f < |states[n + 1].fibers| && Trying(states[n + 1].fibers[f].pc)
    requires Moves(states[n].fibers[f], states[n + 1].fibers[f], FindsNone(states[n], steps[n], f))
    requires Trying(states[n].fibers[f].pc) ==> (states[n].fibers[f].starved <==> HasStarved(states, steps, n, f))
    ensures states[n + 1].fibers[f].starved <==> HasStarved(states, steps, n + 1, f)
  {
    var a, b := states[n].fibers[f], states[n + 1].fibers[f];
    if FindsNone(states[n], steps[n], f) {
      assert FoundNone(states[n], steps[n], f, b);
    } else if SameRequest(a, b) {
      assert !FoundNone(states[n], steps[n], f, b);
      assert forall i :: 0 <= i < n ==> FoundNone(states[i], steps[i], f, b) == FoundNone(states[i], steps[i], f, a);
    } else {
      forall i | 0 <= i <= n
        ensures !FoundNone(states[i], steps[i], f, b)
      {
        if f < |states[i].fibers| {
          NeverBack(states, steps, i, n, f);
        }
      }
    }
  }

  /** A fiber's `starved` says whether it has already found no slot for the SQE it asks for. */
  lemma {:induction false} StarvedExactly(states: seq<State>, steps: seq<Step>, n: nat, f: nat)
    requires IsRun(states, steps) && Init(states[0]) && n <= |steps|
    requires f < |states[n].fibers| && Trying(states[n].fibers[f].pc)
    ensures states[n].fibers[f].starved <==> HasStarved(states, steps, n, f)
  {
    if n > 0 {
      FiberCount(states, steps, n - 1);
      FiberCount(states, steps, n);
      StepMoves(states[n - 1], steps[n - 1], f);
      if Trying(states[n - 1].fibers[f].pc) {
        StarvedExactly(states, steps, n - 1, f);
      }
      StarvedNext(states, steps, n - 1, f);
    }
  }

  lemma {:induction false} FiberCount(states: seq<State>, steps: seq<Step>, n: nat)
    requires IsRun(states, steps) && n <= |steps|
    ensures |states[n].fibers| == |states[0].fibers|
  {
    if n > 0 {
      FiberCount(states, steps, n - 1);
      SameFibers(states[n - 1], steps[n - 1]);
    }
  }

  /** The step finds no slot. */
  ghost predicate Fails(s: State, step: Step) {
    s.control.Running? && FindsNone(s, step, s.control.fiber)
  }

  /** The step places an SQE for which its fiber had found no slot before. */
  ghost predicate EndsStarvation(states: seq<State>, steps: seq<Step>, i: nat)
    requires i < |steps| < |states|
  {
    Places(states[i], steps[i]) && HasStarved(states, steps, i, states[i].control.fiber)
  }

  ghost function FailedAttempts(states: seq<State>, steps: seq<Step>, n: nat): nat
    requires n <= |steps| < |states|
  {
    if n == 0 then 0
    else FailedAttempts(states, steps, n - 1) + if Fails(states[n - 1], steps[n - 1]) then 1 else 0
  }

  ghost function Starvations(states: seq<State>, steps: seq<Step>, n: nat): nat
    requires n <= |steps| < |states|
  {
    if n == 0 then 0
    else Starvations(states, steps, n - 1) + if EndsStarvation(states, steps, n - 1) then 1 else 0
  }

  lemma StepCounters(s: State, step: Step)
    requires Enabled(s, step)
    ensures Apply(s, step).ring.cycles == s.ring.cycles + if Fails(s, step) then 1 else 0
    ensures Apply(s, step).ring.times ==
            s.ring.times + if Places(s, step) && s.fibers[s.control.fiber].starved then 1 else 0
  {
    StepRing(s, step);
  }

  /** `cycles` counts the attempts that found no slot, and `times` the SQEs for which there was at least
      one such attempt and that were placed all the same. */
  lemma {:induction false} StarvationCounted(states: seq<State>, steps: seq<Step>, n: nat)
    requires IsRun(states, steps) && Init(states[0]) && n <= |steps|
    ensures states[n].ring.cycles == FailedAttempts(states, steps, n)
    ensures states[n].ring.times == Starvations(states, steps, n)
  {
    if n > 0 {
      StarvationCounted(states, steps, n - 1);
      StepCounters(states[n - 1], steps[n - 1]);
      if Places(states[n - 1], steps[n - 1]) {
        StarvedExactly(states, steps, n - 1, states[n - 1].control.fiber);
      }
    }
  }
}
