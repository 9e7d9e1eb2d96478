/** The two SQEs of a timed `ring_submit`: when they stay adjacent, when the submit check can fail,
    and when a fiber waits for a slot for ever. */
module CompletionLinks {
  import opened Rings
  import opened Completion
  import opened CompletionInvariant
  import opened CompletionProgress

  function FreeSlots(q: Queues): int {
    q.entries - |q.built| - |q.visible|
  }

  // Adjacency.

  /** The running fiber places both halves without giving up control. */
  ghost predicate PlacingBoth(s: State, f: nat) {
    && s.control == Running(f) && f < |s.fibers|
    && match s.fibers[f].pc
       case TryOp => FreeSlots(s.ring.q) >= 2
       case TryTimeout =>
         && FreeSlots(s.ring.q) >= 1 && s.ring.q.built != []
         && s.ring.q.built[|s.ring.q.built| - 1] == Sqe(Id(s.fibers, f, Operation), true)
       case _ => false
  }

  /** The step places the timeout SQE right behind the operation it belongs to, one flush makes
      both visible, and the submit check passes. */
  ghost predicate PlacesLinkedPair(s: State, step: Step, f: nat) {
    && f < |s.fibers| && s.control == Running(f) && Enabled(s, step) && step.Attempt?
    && var p, t := Published(s), Apply(s, step);
       && |p| >= 2
       && p[|p| - 2] == Sqe(Id(s.fibers, f, Operation), true)
       && p[|p| - 1] == Sqe(Id(s.fibers, f, LinkTimeout), false)
       && t.ring.q.built == []
       && t.ring.q.inflight + SqeIds(t.ring.q.visible) == s.ring.q.inflight + SqeIds(p)
       && t.fibers[f].pc == Parked(true) && !FailsCheck(s, step)
  }

  lemma TakeOrder(before: seq<SetterId>, visible: seq<Sqe>, c: nat)
    requires c <= |visible|
    ensures (before + SqeIds(visible[..c])) + SqeIds(visible[c..]) == before + SqeIds(visible)
  {
    SqeIdsConcat(visible[..c], visible[c..]);
    assert visible == visible[..c] + visible[c..];
  }

  lemma TakeKeepsOrder(q: Queues, k: nat)
    ensures Take(q, k).inflight + SqeIds(Take(q, k).visible) == q.inflight + SqeIds(q.visible)
    ensures Take(q, k).built == q.built && FreeSlots(Take(q, k)) >= FreeSlots(q)
  {
    TakeOrder(q.inflight, q.visible, Clip(k, |q.visible|));
  }

  lemma FlushShape(r: RingState, starved: bool, sqe: Sqe, taken: nat)
    ensures var p := r.q.visible + r.q.built + [sqe];
            Place(r, starved, sqe, false, taken).q == Take(r.q.(built := [], visible := p), taken)
  {
    assert r.q.visible + (r.q.built + [sqe]) == r.q.visible + r.q.built + [sqe];
  }

  /** The kernel never splits the pair, so the submit count cannot be one. */
  lemma PairPassesCheck(s: State, taken: nat, f: nat)
    requires PlacingBoth(s, f) && s.fibers[f].pc.TryTimeout? && Enabled(s, Attempt(taken))
    ensures var p := Published(s);
            && |p| >= 2 && p[|p| - 2] == Sqe(Id(s.fibers, f, Operation), true)
            && p[|p| - 1] == Sqe(Id(s.fibers, f, LinkTimeout), false)
    ensures !FailsCheck(s, Attempt(taken))
  {
  }

  lemma PairFlushed(s: State, taken: nat, f: nat)
    requires s.control == Running(f) && f < |s.fibers| && s.fibers[f].pc.TryTimeout? && CanGetSqe(s.ring.q)
    requires Enabled(s, Attempt(taken)) && !FailsCheck(s, Attempt(taken))
    ensures var t := Apply(s, Attempt(taken));
            && t.ring.q == Take(s.ring.q.(built := [], visible := Published(s)), taken)
            && t.fibers[f].pc == Parked(true)
  {
    PlaceShape(s, taken);
    FlushShape(s.ring, s.fibers[f].starved, NextSqe(s, f), taken);
  }

  lemma LinkedPairPlaced(s: State, taken: nat, f: nat)
    requires PlacingBoth(s, f) && s.fibers[f].pc.TryTimeout? && Enabled(s, Attempt(taken))
    ensures PlacesLinkedPair(s, Attempt(taken), f)
  {
    PairPassesCheck(s, taken, f);
    PairFlushed(s, taken, f);
    TakeKeepsOrder(s.ring.q.(built := [], visible := Published(s)), taken);
  }

  lemma PlacingBothStep(s: State, step: Step, f: nat)
    requires PlacingBoth(s, f) && Enabled(s, step)
    ensures PlacingBoth(Apply(s, step), f) || (s.fibers[f].pc.TryTimeout? && PlacesLinkedPair(s, step, f))
  {
    match step
    case Attempt(taken) =>
      if s.fibers[f].pc.TryTimeout? {
        LinkedPairPlaced(s, taken, f);
      } else {
        PlaceShape(s, taken);
      }
    case KernelTake(k) => TakeKeepsOrder(s.ring.q, k);
    case KernelComplete(i, res) =>
  }

  /** If two slots are free when the timed call starts, then up to step n either the call is still
      placing its SQEs or some step before n placed the linked pair; kernel steps may fall anywhere
      and no other fiber gets in between. */
  lemma {:induction false} LinkAdjacency(states: seq<State>, steps: seq<Step>, f: nat, n: nat) returns (m: nat)
    requires IsRun(states, steps) && n <= |steps|
    requires f < |states[0].fibers| && states[0].control == Running(f) && states[0].fibers[f].pc.TryOp?
    requires FreeSlots(states[0].ring.q) >= 2
    ensures m <= n && forall i :: 0 <= i <= m ==> PlacingBoth(states[i], f)
    ensures m < n ==> PlacesLinkedPair(states[m], steps[m], f)
  {
    if n == 0 {
      m := 0;
    } else {
      m := LinkAdjacency(states, steps, f, n - 1);
      if m == n - 1 {
        PlacingBothStep(states[m], steps[m], f);
        if PlacingBoth(states[n], f) {
          m := n;
        }
      }
    }
  }

  // Runs in which every timed call starts with two free slots.

  ghost predicate Half(pc: Pc) {
    pc.TryOp? || pc.TryTimeout?
  }

  /** A fiber that has not placed both halves of a timed call is running and has room for them. */
  ghost predicate HalvesHaveRoom(s: State) {
    forall f :: 0 <= f < |s.fibers| && Half(s.fibers[f].pc) ==> PlacingBoth(s, f)
  }

  ghost predicate StartsWithRoom(s: State, step: Step) {
    step.Begin? && step.timed ==> FreeSlots(s.ring.q) >= 2
  }

  /** While the scheduler or a waiting poller is in control no call is half placed. */
  lemma IdleHalves(s: State, step: Step)
    requires HalvesHaveRoom(s) && Enabled(s, step) && StartsWithRoom(s, step) && !s.control.Running?
    ensures HalvesHaveRoom(Apply(s, step))
  {
    if IsDispatch(step) {
      StepNudges(s, step);
    }
  }

  lemma RunningAlone(s: State, step: Step, f: nat)
    requires Enabled(s, step) && s.control == Running(f) && f < |s.fibers|
    ensures var t := Apply(s, step);
            && |t.fibers| == |s.fibers|
            && (forall g :: 0 <= g < |s.fibers| && g != f ==> t.fibers[g] == s.fibers[g])
            && (!Half(s.fibers[f].pc) ==> !Half(t.fibers[f].pc) && !FailsCheck(s, step))
  {
  }

  lemma RunningHalves(s: State, step: Step)
    requires HalvesHaveRoom(s) && Enabled(s, step) && s.control.Running? && s.control.fiber < |s.fibers|
    ensures HalvesHaveRoom(Apply(s, step)) && !FailsCheck(s, step)
  {
    var f, t := s.control.fiber, Apply(s, step);
    RunningAlone(s, step, f);
    if Half(s.fibers[f].pc) {
      PlacingBothStep(s, step, f);
      assert FailsCheck(s, step) ==> s.fibers[f].pc.TryTimeout?;
      if step.Attempt? && s.fibers[f].pc.TryTimeout? {
        LinkedPairPlaced(s, step.taken, f);
      }
    }
    assert forall g: nat :: g < |s.fibers| && g != f ==> !Half(s.fibers[g].pc);
  }

  lemma {:induction false} HalvesAlong(states: seq<State>, steps: seq<Step>, n: nat)
    requires IsRun(states, steps) && Init(states[0]) && n <= |steps|
    requires forall i :: 0 <= i < n ==> StartsWithRoom(states[i], steps[i])
    ensures HalvesHaveRoom(states[n]) && Inv(states[n])
  {
    if n == 0 {
      InitInv(states[0]);
    } else {
      HalvesAlong(states, steps, n - 1);
      var s, step := states[n - 1], steps[n - 1];
      if s.control.Running? {
        RunningHalves(s, step);
      } else {
        IdleHalves(s, step);
      }
      StepInv(s, step);
    }
  }

  /** If every timed call of a run starts with two free slots, no submit check fails anywhere in it,
      so that everything proved of sound runs holds. */
  lemma RoomyRunsAreSound(states: seq<State>, steps: seq<Step>)
    requires IsRun(states, steps) && Init(states[0])
    requires forall i :: 0 <= i < |steps| ==> StartsWithRoom(states[i], steps[i])
    ensures Sound(states, steps)
  {
    forall i | 0 <= i < |steps|
      ensures !FailsCheck(states[i], steps[i])
    {
      HalvesAlong(states, steps, i);
      if states[i].control.Running? {
        RunningHalves(states[i], steps[i]);
      }
    }
  }

  /** The check can fail exactly if the entry before the timeout does not link to it. */
  lemma CheckCanFailExactly(s: State, f: nat)
    requires s.control == Running(f) && f < |s.fibers| && s.fibers[f].pc.TryTimeout? && CanGetSqe(s.ring.q)
    ensures (exists taken :: Enabled(s, Attempt(taken)) && FailsCheck(s, Attempt(taken)))
            <==> var p := Published(s); |p| == 1 || !p[|p| - 2].link
  {
    var p := Published(s);
    if |p| == 1 || !p[|p| - 2].link {
      assert Enabled(s, Attempt(|p| - 1)) && FailsCheck(s, Attempt(|p| - 1));
    }
  }

  lemma LastIsMember(q: seq<Sqe>)
    ensures q != [] ==> q[|q| - 1] in q
  {
  }

  /** In reachable states that takes a fiber whose operation was flushed before its timeout. */
  lemma CheckFailsOnlyIfSplit(s: State, taken: nat)
    requires Inv(s) && Enabled(s, Attempt(taken)) && FailsCheck(s, Attempt(taken))
    ensures s.ring.q.built == []
  {
    LastIsMember(s.ring.q.built);
  }

  // Starvation.

  /** Every slot is held by an operation whose timeout SQE needs one more. */
  predicate Clogged(q: Queues) {
    |q.built| >= q.entries
  }

  lemma CloggedStep(s: State, step: Step)
    requires Enabled(s, step) && Clogged(s.ring.q)
    ensures Clogged(Apply(s, step).ring.q) && Apply(s, step).ring.q.built == s.ring.q.built
    ensures Apply(s, step).ring.q.entries == s.ring.q.entries
  {
    StepRing(s, step);
  }

  /** Only a failed attempt or a poll touches a fiber that waits for a slot, and neither moves it. */
  lemma CloggedKeepsTrying(s: State, step: Step, f: nat)
    requires Enabled(s, step) && !CanGetSqe(s.ring.q) && f < |s.fibers| && Trying(s.fibers[f].pc)
    ensures var t := Apply(s, step);
            f < |t.fibers| && t.fibers[f].pc == s.fibers[f].pc && t.fibers[f].call == s.fibers[f].call
  {
    if IsDispatch(step) {
      StepNudges(s, step);
    }
  }

  /** Once clogged, no SQE is ever obtained again, nothing built is ever flushed, and each fiber
      that waits for a slot waits for ever. */
  lemma {:induction false} CloggedForever(states: seq<State>, steps: seq<Step>, n: nat, f: nat)
    requires IsRun(states, steps) && Clogged(states[0].ring.q) && n <= |steps|
    requires f < |states[0].fibers| && Trying(states[0].fibers[f].pc)
    ensures Clogged(states[n].ring.q) && !CanGetSqe(states[n].ring.q)
    ensures states[n].ring.q.built == states[0].ring.q.built
    ensures f < |states[n].fibers| && states[n].fibers[f].pc == states[0].fibers[f].pc
    ensures states[n].fibers[f].call == states[0].fibers[f].call
  {
    if n > 0 {
      CloggedForever(states, steps, n - 1, f);
      CloggedStep(states[n - 1], steps[n - 1]);
      CloggedKeepsTrying(states[n - 1], steps[n - 1], f);
    }
  }

  lemma CloggedRun(states: seq<State>, steps: seq<Step>, n: nat)
    requires IsRun(states, steps) && Clogged(states[0].ring.q) && n <= |steps|
    ensures Clogged(states[n].ring.q)
  {
    if n > 0 {
      CloggedRun(states, steps, n - 1);
      CloggedStep(states[n - 1], steps[n - 1]);
    }
  }

  ghost predicate SlotWithin(states: seq<State>, steps: seq<Step>, s: State) {
    IsRun(states, steps) && states[0] == s && CanGetSqe(states[|steps|].ring.q)
  }

  /** A slot can still turn up if and only if the built SQEs leave one. */
  lemma SlotReachableExactly(s: State)
    ensures (exists states, steps :: SlotWithin(states, steps, s)) <==> !Clogged(s.ring.q)
  {
    if Clogged(s.ring.q) {
      forall states, steps
        ensures !SlotWithin(states, steps, s)
      {
        if IsRun(states, steps) && states[0] == s {
          CloggedRun(states, steps, |steps|);
        }
      }
    } else if s.ring.q.visible == [] {
      assert SlotWithin([s], [], s);
    } else {
      var step := KernelTake(|s.ring.q.visible|);
      assert SlotWithin([s, Apply(s, step)], [step], s);
    }
  }

  /** With a single entry, every timed call that gets its first SQE never returns. */
  lemma SingleEntryHangs(states: seq<State>, steps: seq<Step>, n: nat, f: nat)
    requires IsRun(states, steps) && 1 <= n <= |steps| && Inv(states[0]) && states[0].ring.q.entries == 1
    requires states[0].control == Running(f) && f < |states[0].fibers| && states[0].fibers[f].pc.TryOp?
    requires CanGetSqe(states[0].ring.q) && steps[0].Attempt?
    ensures f < |states[n].fibers| && states[n].fibers[f].pc.TryTimeout?
    ensures states[n].fibers[f].call == states[0].fibers[f].call
  {
    PlaceShape(states[0], steps[0].taken);
    assert IsRun(states[1..], steps[1..]);
    CloggedForever(states[1..], steps[1..], n - 1, f);
  }
}
