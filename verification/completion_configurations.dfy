/** Which sizes of the ring rule out, for a given number of fibers, that submit checks fail and that
    the queue clogs. */
module CompletionConfigurations {
  import opened Rings
  import opened Completion
  import opened CompletionInvariant
  import opened CompletionTheorems
  import opened CompletionProgress
  import opened CompletionLinks
  import opened CompletionRuns
  import opened CompletionAdjacency
  import opened CompletionSplitting

  ghost predicate RunOf(entries: nat, fibers: nat, states: seq<State>, steps: seq<Step>) {
    IsRun(states, steps) && Init(states[0]) && states[0].ring.q.entries == entries && |states[0].fibers| == fibers
  }

  lemma {:induction false} SizesFixed(states: seq<State>, steps: seq<Step>, n: nat)
    requires IsRun(states, steps) && n <= |steps|
    ensures states[n].ring.q.entries == states[0].ring.q.entries && |states[n].fibers| == |states[0].fibers|
  {
    if n > 0 {
      SizesFixed(states, steps, n - 1);
      StepRing(states[n - 1], steps[n - 1]);
      SameFibers(states[n - 1], steps[n - 1]);
    }
  }

  // Rings with two entries for each fiber.

  /** A fiber between two calls has nothing in the queues, every other at most two entries. */
  lemma IdleLeavesRoom(s: State, f: nat)
    requires Inv(s) && f < |s.fibers| && s.fibers[f].pc.Idle?
    ensures |Load(s.ring.q)| + 2 <= 2 * |s.fibers|
  {
    var op, timeout := Id(s.fibers, f, Operation), Id(s.fibers, f, LinkTimeout);
    var more, ids := Load(s.ring.q) + multiset{op, timeout}, FrameIds(s.fibers, |s.fibers|);
    forall id
      ensures more[id] <= multiset(ids)[id]
    {
      LoadBounds(s, [], id);
      if id in Named(s, []) {
        NamedOnce(s, [], id);
      }
    }
    SubmultisetSize(more, multiset(ids));
  }

  lemma {:induction false} BigRingHasRoom(entries: nat, fibers: nat, states: seq<State>, steps: seq<Step>, n: nat)
    requires RunOf(entries, fibers, states, steps) && entries >= 2 * fibers && n <= |steps|
    ensures forall i :: 0 <= i < n ==> StartsWithRoom(states[i], steps[i])
  {
    if n > 0 {
      BigRingHasRoom(entries, fibers, states, steps, n - 1);
      HalvesAlong(states, steps, n - 1);
      SizesFixed(states, steps, n - 1);
      var s, step := states[n - 1], steps[n - 1];
      if step.Begin? {
        IdleLeavesRoom(s, step.fiber);
        LoadSize(s.ring.q);
      }
    }
  }

  // Rings with one entry.

  ghost predicate HalfPlacedMeansClogged(s: State) {
    forall f: nat :: f < |s.fibers| && s.fibers[f].pc.TryTimeout? ==> Clogged(s.ring.q)
  }

  lemma StepOneEntry(s: State, step: Step)
    requires Enabled(s, step) && HalfPlacedMeansClogged(s) && s.ring.q.entries == 1
    ensures HalfPlacedMeansClogged(Apply(s, step)) && !FailsCheck(s, step)
  {
    var t := Apply(s, step);
    SameFibers(s, step);
    StepRing(s, step);
    forall f: nat | f < |t.fibers| && t.fibers[f].pc.TryTimeout?
      ensures Clogged(t.ring.q)
    {
      if s.fibers[f].pc.TryTimeout? {
        CloggedStep(s, step);
      } else {
        OnlyPlacingHalves(s, step, f);
        OperationPlaced(s, step, f);
      }
    }
  }

  lemma {:induction false} OneEntryIsSound(fibers: nat, states: seq<State>, steps: seq<Step>, n: nat)
    requires RunOf(1, fibers, states, steps) && n <= |steps|
    ensures HalfPlacedMeansClogged(states[n]) && forall i :: 0 <= i < n ==> !FailsCheck(states[i], steps[i])
  {
    if n > 0 {
      OneEntryIsSound(fibers, states, steps, n - 1);
      SizesFixed(states, steps, n - 1);
      StepOneEntry(states[n - 1], steps[n - 1]);
    }
  }

  // All others: a run that fails the check.

  /** Fibers 1 to j hold k entries and are parked, all the others have done nothing. */
  ghost predicate Filled(s: State, entries: nat, fibers: nat, k: nat, j: nat) {
    && Inv(s) && s.control == Scheduler && |s.fibers| == fibers && j < fibers && s.dropped == multiset{}
    && s.ring.q.entries == entries && s.ring.q.built == [] && |s.ring.q.visible| == k
    && (forall f :: 1 <= f <= j ==> s.fibers[f].pc.Parked?)
    && (forall f :: 0 <= f < fibers && !(1 <= f <= j) ==> s.fibers[f].pc.Idle?)
  }

  /** The last SQE of a call. */
  lemma PlaceLast(start: State, s: State, f: nat) returns (t: State)
    requires Leads(start, s) && Inv(s) && s.control == Running(f) && f < |s.fibers| && CanGetSqe(s.ring.q)
    requires s.fibers[f].pc.TryPlain? || (s.fibers[f].pc.TryTimeout? && |Published(s)| >= 2)
    ensures Leads(start, t) && Inv(t) && OnlyMoved(s, t, f) && t.control == Scheduler
    ensures t.fibers[f].call == s.fibers[f].call && t.fibers[f].pc == Parked(s.fibers[f].pc.TryTimeout?)
    ensures t.ring.q == s.ring.q.(built := [], visible := Published(s))
  {
    StepInv(s, Attempt(0));
    PlaceShape(s, 0);
    PlacedQueues(s, 0);
    t := Go(start, s, Attempt(0));
    assert SqeIds([]) == [];
  }

  lemma FillOne(start: State, fibers: nat) returns (s: State)
    requires start.ring.q.entries > 1 && fibers > 1 && Leads(start, start)
    requires Filled(start, start.ring.q.entries, fibers, 0, 0)
    ensures Leads(start, s) && Filled(s, start.ring.q.entries, fibers, 1, 1)
  {
    s := StartCall(start, start, 1, false);
    s := PlaceLast(start, s, 1);
  }

  lemma PlaceHalf(start: State, s: State, f: nat) returns (t: State)
    requires Leads(start, s) && Inv(s) && s.control == Running(f) && f < |s.fibers| && s.fibers[f].pc.TryOp?
    requires CanGetSqe(s.ring.q)
    ensures Leads(start, t) && Inv(t) && OnlyMoved(s, t, f) && t.control == s.control
    ensures HalfPlacedIn(t, f, s.fibers[f].call)
    ensures t.ring.q == s.ring.q.(built := s.ring.q.built + [NextSqe(s, f)])
  {
    StepInv(s, Attempt(0));
    OperationPlaced(s, Attempt(0), f);
    PlacedQueues(s, 0);
    t := Go(start, s, Attempt(0));
  }

  lemma PlaceBoth(start: State, s: State, f: nat) returns (t: State)
    requires Leads(start, s) && Inv(s) && s.control == Scheduler && f < |s.fibers| && s.fibers[f].pc.Idle?
    requires s.ring.q.built == [] && FreeSlots(s.ring.q) >= 2
    ensures Leads(start, t) && Inv(t) && OnlyMoved(s, t, f) && t.control == Scheduler && t.fibers[f].pc.Parked?
    ensures t.ring.q.built == [] && |t.ring.q.visible| == |s.ring.q.visible| + 2
    ensures t.ring.q.entries == s.ring.q.entries
  {
    var begun := StartCall(start, s, f, true);
    var half := PlaceHalf(start, begun, f);
    t := PlaceLast(start, half, f);
  }

  /** One more fiber places both halves of a timed call. */
  lemma FillTwo(start: State, s: State, entries: nat, fibers: nat, k: nat, j: nat) returns (t: State)
    requires Leads(start, s) && Filled(s, entries, fibers, k, j) && k + 2 < entries && j + 1 < fibers
    ensures Leads(start, t) && Filled(t, entries, fibers, k + 2, j + 1)
  {
    t := PlaceBoth(start, s, j + 1);
  }

  lemma {:induction false} Fill(start: State, entries: nat, fibers: nat, k: nat) returns (s: State)
    requires Leads(start, start) && Filled(start, entries, fibers, 0, 0) && 0 < k < entries && k <= 2 * fibers - 2
    ensures Leads(start, s) && Filled(s, entries, fibers, k, (k + 1) / 2)
    decreases k
  {
    if k == 1 {
      s := FillOne(start, fibers);
    } else if k == 2 {
      s := FillTwo(start, start, entries, fibers, 0, 0);
    } else {
      s := Fill(start, entries, fibers, k - 2);
      s := FillTwo(start, s, entries, fibers, k - 2, (k - 1) / 2);
    }
  }

  /** The foreign SQE of a plain call flushes the operation in front of it. */
  lemma SplitFlushes(start: State, u: State, f: nat, call: nat) returns (s: State)
    requires Leads(start, u) && AboutToSplit(u, f, call) && u.fibers[u.control.fiber].pc.TryPlain?
    ensures Leads(start, s) && s.control == Scheduler && HalfPlacedIn(s, f, call)
    ensures s.ring.q.built == [] && s.ring.q.visible != [] && s.ring.q.entries == u.ring.q.entries
  {
    PlacedQueues(u, 0);
    StepHalfPlaced(u, Attempt(0), f);
    s := Go(start, u, Attempt(0));
  }

  /** Once the kernel has taken all that, the timeout is alone and the check fails. */
  lemma AloneFails(start: State, u: State, f: nat, call: nat) returns (s: State)
    requires Leads(start, u) && u.control == Scheduler && HalfPlacedIn(u, f, call)
    requires u.ring.q.built == [] && u.ring.q.visible != [] && u.ring.q.entries > 0
    ensures Leads(start, s) && Enabled(s, Attempt(0)) && FailsCheck(s, Attempt(0))
  {
    s := Go(start, u, KernelTake(|u.ring.q.visible|));
    s := Go(start, s, Resume(f));
    assert Published(s) == [NextSqe(s, f)];
  }

  /** One slot is left when fiber 0 starts a timed call. */
  lemma ReachSplittable(start: State, entries: nat, fibers: nat) returns (s: State)
    requires 2 <= entries < 2 * fibers && start == Start(entries, fibers, 1)
    ensures Leads(start, s) && Inv(s) && s.control == Running(0) && |s.fibers| == fibers && s.fibers[0].pc.TryOp?
    ensures FreeSlots(s.ring.q) == 1 && s.ring.q.visible != [] && s.ring.q.entries == entries
    ensures s.fibers[1].pc.Parked? && !Stuck(s, 1)
  {
    LeadsNowhere(start);
    InitInv(start);
    s := Fill(start, entries, fibers, entries - 1);
    s := StartCall(start, s, 0, true);
  }

  lemma SmallRingFails(entries: nat, fibers: nat) returns (s: State)
    requires 2 <= entries < 2 * fibers
    ensures Leads(Start(entries, fibers, 1), s) && Enabled(s, Attempt(0)) && FailsCheck(s, Attempt(0))
  {
    var start := Start(entries, fibers, 1);
    s := ReachSplittable(start, entries, fibers);
    var call := s.fibers[0].call;
    s := SplitBy(start, s, 0, 1);
    s := SplitFlushes(start, s, 0, call);
    s := AloneFails(start, s, 0, call);
  }

  ghost predicate AlwaysSound(entries: nat, fibers: nat) {
    forall states, steps :: RunOf(entries, fibers, states, steps) ==> Sound(states, steps)
  }

  /** No submit check can ever fail if and only if the ring has two entries for each fiber, or a single
      one. */
  lemma SoundByConfiguration(entries: nat, fibers: nat)
    requires entries > 0
    ensures AlwaysSound(entries, fibers) <==> entries == 1 || entries >= 2 * fibers
  {
    if entries == 1 || entries >= 2 * fibers {
      forall states: seq<State>, steps: seq<Step> | RunOf(entries, fibers, states, steps)
        ensures Sound(states, steps)
      {
        if entries == 1 {
          OneEntryIsSound(fibers, states, steps, |steps|);
        } else {
          BigRingHasRoom(entries, fibers, states, steps, |steps|);
          RoomyRunsAreSound(states, steps);
        }
      }
    } else {
      var start := Start(entries, fibers, 1);
      var s := SmallRingFails(entries, fibers);
      var states, steps :| RunBetween(states, steps, start, s);
      ExtendRun(states, steps, start, s, Attempt(0));
      assert RunOf(entries, fibers, states + [Apply(s, Attempt(0))], steps + [Attempt(0)]);
      assert (states + [Apply(s, Attempt(0))])[|steps|] == s && (steps + [Attempt(0)])[|steps|] == Attempt(0);
    }
  }

  ghost predicate AlwaysAlive(states: seq<State>) {
    forall n :: 0 <= n < |states| ==> SetterLifetime(states[n])
  }

  /** So these are the configurations in which no run ever leaves a `user_data` dangling. */
  lemma LifetimeByConfiguration(entries: nat, fibers: nat)
    requires entries > 0
    ensures (forall states, steps :: RunOf(entries, fibers, states, steps) ==> AlwaysAlive(states)) <==>
            entries == 1 || entries >= 2 * fibers
  {
    SoundByConfiguration(entries, fibers);
    forall states: seq<State>, steps: seq<Step> | RunOf(entries, fibers, states, steps)
      ensures AlwaysAlive(states) <==> Sound(states, steps)
    {
      LifetimeExactly(states, steps);
    }
  }

  ghost predicate CanSplit(entries: nat, fibers: nat) {
    exists states: seq<State>, steps: seq<Step>, f: nat, call: nat ::
      RunOf(entries, fibers, states, steps) && AboutToSplit(states[|steps|], f, call)
  }

  lemma BigRingNeverSplits(entries: nat, fibers: nat, states: seq<State>, steps: seq<Step>, f: nat, call: nat)
    requires RunOf(entries, fibers, states, steps) && (entries == 1 || entries >= 2 * fibers)
    ensures !AboutToSplit(states[|steps|], f, call)
  {
    if entries == 1 {
      OneEntryIsSound(fibers, states, steps, |steps|);
    } else {
      BigRingHasRoom(entries, fibers, states, steps, |steps|);
      HalvesAlong(states, steps, |steps|);
      assert HalfPlacedIn(states[|steps|], f, call) ==> PlacingBoth(states[|steps|], f);
    }
  }

  /** And these are those in which no SQE ever lands between an operation and its timeout, whether a
      check would notice or not. */
  lemma SplitsByConfiguration(entries: nat, fibers: nat)
    requires entries > 0
    ensures CanSplit(entries, fibers) <==> 2 <= entries < 2 * fibers
  {
    if 2 <= entries < 2 * fibers {
      var start := Start(entries, fibers, 1);
      var s := ReachSplittable(start, entries, fibers);
      var u := SplitBy(start, s, 0, 1);
      var states, steps :| RunBetween(states, steps, start, u);
      assert RunOf(entries, fibers, states, steps) && AboutToSplit(states[|steps|], 0, s.fibers[0].call);
    } else {
      forall states: seq<State>, steps: seq<Step>, f: nat, call: nat | RunOf(entries, fibers, states, steps)
        ensures !AboutToSplit(states[|steps|], f, call)
      {
        BigRingNeverSplits(entries, fibers, states, steps, f, call);
      }
    }
  }

  // Clogging.

  function HalfPlacedFibers(fibers: Fibers): set<nat> {
    set f: nat | f < |fibers| && fibers[f].pc.TryTimeout?
  }

  /** As many different fibers as entries. */
  lemma {:induction false} OwnersBound(built: seq<Sqe>, owners: set<nat>)
    requires forall i, j :: 0 <= i < j < |built| ==> built[i].data.fiber != built[j].data.fiber
    requires forall i :: 0 <= i < |built| ==> built[i].data.fiber in owners
    ensures |built| <= |owners|
    decreases |built|
  {
    if built != [] {
      var n := |built| - 1;
      OwnersBound(built[..n], owners - {built[n].data.fiber});
    }
  }

  lemma {:induction false} SizeBelow(fs: set<nat>, n: nat)
    requires forall f :: f in fs ==> f < n
    ensures |fs| <= n
  {
    if n == 0 {
      assert fs == {};
    } else {
      SizeBelow(fs - {n - 1}, n - 1);
    }
  }

  /** In every run, what is built never exceeds the fibers between two halves: with fewer of those than
      entries the queue is not clogged. */
  lemma BuiltBound(states: seq<State>, steps: seq<Step>, n: nat)
    requires IsRun(states, steps) && Init(states[0]) && n <= |steps|
    ensures |states[n].ring.q.built| <= |HalfPlacedFibers(states[n].fibers)| <= |states[n].fibers|
    ensures |HalfPlacedFibers(states[n].fibers)| < states[n].ring.q.entries ==> !Clogged(states[n].ring.q)
  {
    var fibers, built := states[n].fibers, states[n].ring.q.built;
    RunBuilt(states, steps, n);
    forall i | 0 <= i < |built|
      ensures built[i].data.fiber in HalfPlacedFibers(fibers)
    {
      assert built[i] in built;
    }
    OwnersBound(built, HalfPlacedFibers(fibers));
    SizeBelow(HalfPlacedFibers(fibers), |fibers|);
  }

  // A run that clogs.

  /** k operations are built, and plain calls of the fibers from k on hold the other entries. */
  ghost predicate Stage(s: State, entries: nat, k: nat) {
    && Inv(s) && s.control == Scheduler && s.dropped == multiset{} && s.ring.q.entries == entries <= |s.fibers|
    && |s.ring.q.built| == k && |s.ring.q.visible| == entries - k && s.ring.q.inflight == [] && s.ring.q.cq == []
    && RestParked(s, k)
  }

  /** What the kernel can see are plain calls of the fibers from k on. */
  ghost predicate RestParked(s: State, k: nat) {
    forall i :: 0 <= i < |s.ring.q.visible| ==> ParkedPlain(s, k + i, s.ring.q.visible[i])
  }

  ghost predicate ParkedPlain(s: State, f: nat, sqe: Sqe) {
    f < |s.fibers| && s.fibers[f].pc == Parked(false) && sqe == Sqe(Id(s.fibers, f, Operation), false)
  }

  /** Fibers 1 to j each hold an entry with a plain call. */
  ghost predicate PlainFilled(s: State, entries: nat, j: nat) {
    && Inv(s) && s.control == Scheduler && s.dropped == multiset{} && s.ring.q.entries == entries <= |s.fibers|
    && s.ring.q.built == [] && |s.ring.q.visible| == j && s.ring.q.inflight == [] && s.ring.q.cq == []
    && RestParked(s, 1)
    && (forall f :: 0 <= f < |s.fibers| && !(1 <= f <= j) ==> s.fibers[f].pc.Idle?)
  }

  lemma PlacePlain(start: State, s: State, f: nat) returns (t: State)
    requires Leads(start, s) && Inv(s) && s.control == Scheduler && f < |s.fibers| && s.fibers[f].pc.Idle?
    requires s.ring.q.built == [] && CanGetSqe(s.ring.q)
    ensures Leads(start, t) && Inv(t) && OnlyMoved(s, t, f) && t.control == Scheduler
    ensures t.fibers[f].pc == Parked(false)
    ensures t.ring.q == s.ring.q.(visible := s.ring.q.visible + [Sqe(Id(t.fibers, f, Operation), false)])
  {
    t := StartCall(start, s, f, false);
    var sqe := NextSqe(t, f);
    assert Published(t) == s.ring.q.visible + [sqe];
    t := PlaceLast(start, t, f);
    assert sqe == Sqe(Id(t.fibers, f, Operation), false);
  }

  lemma {:induction false} FillPlain(start: State, entries: nat, j: nat) returns (s: State)
    requires Leads(start, start) && PlainFilled(start, entries, 0) && j < entries
    ensures Leads(start, s) && PlainFilled(s, entries, j)
  {
    if j == 0 {
      s := start;
    } else {
      var before := FillPlain(start, entries, j - 1);
      s := PlacePlain(start, before, j);
      forall i | 0 <= i < j
        ensures ParkedPlain(s, 1 + i, s.ring.q.visible[i])
      {
        assert i < j - 1 ==> ParkedPlain(before, 1 + i, before.ring.q.visible[i]);
      }
    }
  }

  /** From the state in which f has one slot left to that in which it waits for the second. */
  lemma NextStage(start: State, s: State, entries: nat, k: nat) returns (t: State)
    requires Leads(start, s) && Inv(s) && s.control == Scheduler && s.dropped == multiset{} && k < entries <= |s.fibers|
    requires s.fibers[k].pc.Idle? && s.ring.q.entries == entries && |s.ring.q.built| == k
    requires |s.ring.q.visible| == entries - k - 1 && s.ring.q.inflight == [] && s.ring.q.cq == []
    requires RestParked(s, k + 1)
    ensures Leads(start, t) && Stage(t, entries, k + 1)
  {
    var u := StartCall(start, s, k, true);
    t := OperationThenStarve(start, u, k);
    forall i | 0 <= i < entries - k - 1
      ensures ParkedPlain(t, k + 1 + i, t.ring.q.visible[i])
    {
      assert ParkedPlain(s, k + 1 + i, s.ring.q.visible[i]);
    }
  }

  /** Whose SQE the kernel still has to take is parked. */
  lemma VisibleIsParked(s: State, i: nat)
    requires Inv(s) && i < |s.ring.q.visible| && s.ring.q.visible[i].data.fiber < |s.fibers|
    ensures !s.fibers[s.ring.q.visible[i].data.fiber].pc.Woken?
  {
    var id := s.ring.q.visible[i].data;
    assert SqeIds(s.ring.q.visible)[i] == id;
    assert id in multiset(SqeIds(s.ring.q.visible));
    LoadBounds(s, [], id);
    NamedOnce(s, [], id);
  }

  ghost predicate NoneWoken(s: State) {
    forall i :: 0 <= i < |s.ring.q.visible| ==>
      var f := s.ring.q.visible[i].data.fiber; f < |s.fibers| ==> !s.fibers[f].pc.Woken?
  }

  lemma VisibleAreParked(s: State)
    requires Inv(s)
    ensures NoneWoken(s)
  {
    forall i | 0 <= i < |s.ring.q.visible| && s.ring.q.visible[i].data.fiber < |s.fibers|
      ensures !s.fibers[s.ring.q.visible[i].data.fiber].pc.Woken?
    {
      VisibleIsParked(s, i);
    }
  }

  lemma RestStaysParked(s: State, t: State, k: nat)
    requires RestParked(s, k) && AllNudged(s.fibers, t.fibers) && NoneWoken(t)
    requires s.ring.q.visible != [] && t.ring.q.visible == s.ring.q.visible[1..]
    ensures RestParked(t, k + 1)
  {
    forall i | 0 <= i < |t.ring.q.visible|
      ensures ParkedPlain(t, k + 1 + i, t.ring.q.visible[i])
    {
      assert t.ring.q.visible[i] == s.ring.q.visible[1 + i];
      assert ParkedPlain(s, k + (1 + i), s.ring.q.visible[1 + i]);
      assert Nudged(s.fibers[k + 1 + i], t.fibers[k + 1 + i]);
    }
  }

  /** The kernel completes the plain call of fiber k, the poller wakes it. */
  lemma CompleteFirst(start: State, s: State, entries: nat, k: nat) returns (t: State)
    requires Leads(start, s) && Stage(s, entries, k) && 0 < k < entries
    ensures Leads(start, t) && Inv(t) && t.control == Scheduler && AllNudged(s.fibers, t.fibers)
    ensures t.ring.q == s.ring.q.(visible := s.ring.q.visible[1..]) && t.dropped == s.dropped
  {
    var built := s.ring.q.built;
    var f := built[k - 1].data.fiber;
    LastIsMember(built);
    var call := s.fibers[f].call;
    assert ParkedPlain(s, k + 0, s.ring.q.visible[0]);
    StepRing(s, KernelTake(1));
    t := SettleStep(start, s, s, KernelTake(1), f, call);
    StepRing(t, KernelComplete(0, 0));
    t := SettleStep(start, s, t, KernelComplete(0, 0), f, call);
    StepRing(t, PollMany);
    t := SettleStep(start, s, t, PollMany, f, call);
  }

  lemma FirstIsWoken(s: State, t: State, k: nat)
    requires RestParked(s, k) && AllNudged(s.fibers, t.fibers) && Inv(t) && RestParked(t, k + 1)
    requires s.ring.q.visible != [] && t.ring.q.inflight == [] && t.ring.q.cq == [] && t.dropped == multiset{}
    ensures k < |t.fibers| && t.fibers[k].pc.Woken?
  {
    assert ParkedPlain(s, k + 0, s.ring.q.visible[0]) && Nudged(s.fibers[k], t.fibers[k]);
    assert forall i :: 0 <= i < |t.ring.q.visible| ==> t.ring.q.visible[i].data.fiber != k by {
      assert forall i :: 0 <= i < |t.ring.q.visible| ==> ParkedPlain(t, k + 1 + i, t.ring.q.visible[i]);
    }
    if t.fibers[k].pc.Parked? {
      var i := ParkedIsVisible(t, k);
    }
  }

  lemma FinishFirst(start: State, s: State, entries: nat, k: nat) returns (t: State)
    requires Leads(start, s) && Stage(s, entries, k) && 0 < k < entries
    ensures Leads(start, t) && Inv(t) && t.control == Scheduler && t.dropped == multiset{} && |t.fibers| == |s.fibers|
    ensures t.fibers[k].pc.Idle? && t.ring.q == s.ring.q.(visible := s.ring.q.visible[1..]) && RestParked(t, k + 1)
  {
    var u := CompleteFirst(start, s, entries, k);
    VisibleAreParked(u);
    RestStaysParked(s, u, k);
    FirstIsWoken(s, u, k);
    t := FinishOne(start, u, k);
    OthersStayParked(u, t, k);
  }

  lemma OthersStayParked(s: State, t: State, k: nat)
    requires RestParked(s, k + 1) && OnlyMoved(s, t, k) && t.ring == s.ring
    ensures RestParked(t, k + 1)
  {
    forall i | 0 <= i < |t.ring.q.visible|
      ensures ParkedPlain(t, k + 1 + i, t.ring.q.visible[i])
    {
      assert ParkedPlain(s, k + 1 + i, s.ring.q.visible[i]);
    }
  }

  lemma {:induction false} ReachStage(start: State, entries: nat, k: nat) returns (s: State)
    requires Leads(start, start) && PlainFilled(start, entries, 0) && 0 < k <= entries
    ensures Leads(start, s) && Stage(s, entries, k)
  {
    if k == 1 {
      s := FillPlain(start, entries, entries - 1);
      s := NextStage(start, s, entries, 0);
    } else {
      s := ReachStage(start, entries, k - 1);
      s := FinishFirst(start, s, entries, k - 1);
      s := NextStage(start, s, entries, k - 1);
    }
  }

  ghost predicate CanClog(entries: nat, fibers: nat) {
    exists states: seq<State>, steps: seq<Step> ::
      RunOf(entries, fibers, states, steps) && Clogged(states[|steps|].ring.q)
  }

  /** The queue can clog if and only if there is a fiber for each entry. */
  lemma ClogsByConfiguration(entries: nat, fibers: nat)
    requires entries > 0
    ensures CanClog(entries, fibers) <==> entries <= fibers
  {
    if entries <= fibers {
      var start := Start(entries, fibers, 1);
      LeadsNowhere(start);
      InitInv(start);
      var s := ReachStage(start, entries, entries);
      var states, steps :| RunBetween(states, steps, start, s);
      assert RunOf(entries, fibers, states, steps);
    } else {
      forall states: seq<State>, steps: seq<Step> | RunOf(entries, fibers, states, steps)
        ensures !Clogged(states[|steps|].ring.q)
      {
        BuiltBound(states, steps, |steps|);
        SizesFixed(states, steps, |steps|);
      }
    }
  }
}
