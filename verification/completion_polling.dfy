/** Polling: batches against single polls, the busy-poll bound, and completions that are lost. */
module CompletionPolling {
  import opened Options
  import opened Rings
  import opened Pollers
  import opened Completion
  import opened CompletionInvariant
  import opened CompletionProgress

  // A batch is as good as single polls.

  /** One `try_poll` and, if it finds something, `dispatch`. */
  function PollOne(r: RingState, setters: Setters): (RingState, Setters, seq<Option<nat>>) {
    if r.q.cq == [] then (r, setters, [])
    else (Reap(r, 1), Store(setters, r.q.cq[0]), [WokenBy(setters, r.q.cq[0])])
  }

  /** k times so: ring, setters and the fibers in order, null included. */
  function PollSingly(r: RingState, setters: Setters, k: nat): (RingState, Setters, seq<Option<nat>>) {
    if k == 0 then (r, setters, [])
    else
      var before := PollSingly(r, setters, k - 1);
      var last := PollOne(before.0, before.1);
      (last.0, last.1, before.2 + last.2)
  }

  lemma ReapTwice(r: RingState, k: nat)
    requires k < |r.q.cq|
    ensures Reap(Reap(r, k), 1) == Reap(r, k + 1)
  {
    WrapStep(r.pending - k, -1);
    assert r.q.cq[k..][1..] == r.q.cq[k + 1..];
  }

  /** One `TryPollMany` leaves what as many single polls leave and yields the same fibers. */
  lemma {:induction false} SingleIsBatch(r: RingState, setters: Setters, k: nat)
    requires k <= |r.q.cq|
    ensures PollSingly(r, setters, k) == (Reap(r, k), StoreAll(setters, r.q.cq[..k]), WokenByAll(setters, r.q.cq[..k]))
  {
    if k == 0 {
      assert r.q.cq[0..] == r.q.cq && Wrap(r.pending) == r.pending;
    } else {
      SingleIsBatch(r, setters, k - 1);
      ReapTwice(r, k - 1);
      BatchNext(setters, r.q.cq, k - 1);
    }
  }

  ghost predicate Distinct(batch: seq<Cqe>) {
    forall p, q :: 0 <= p < q < |batch| ==> batch[p].data != batch[q].data
  }

  /** Dispatching stores each result of the batch in its own setter and changes no other. */
  lemma {:induction false} ResultsAfter(setters: Setters, batch: seq<Cqe>)
    requires AllLive(setters, batch) && Distinct(batch)
    ensures forall p :: 0 <= p < |batch| ==> ResultOf(StoreAll(setters, batch), batch[p].data) == batch[p].res
    ensures forall id :: id !in CqeIds(batch) ==> ResultOf(StoreAll(setters, batch), id) == ResultOf(setters, id)
    decreases |batch|
  {
    if batch != [] {
      var n := |batch| - 1;
      ResultsAfter(setters, batch[..n]);
      assert batch[n] in batch;
      assert CqeIds(batch) == CqeIds(batch[..n]) + [batch[n].data];
      StoreAllKeeps(setters, batch[..n], batch[n].data);
    }
  }

  /** Positions i and j of the batch complete the two halves of one timed call. */
  ghost predicate IsPair(setters: Setters, batch: seq<Cqe>, i: nat, j: nat) {
    && AllLive(setters, batch) && Distinct(batch) && i < j < |batch|
    && var a, b := batch[i].data, batch[j].data;
       && a in setters && b in setters
       && (setters[a].wake == BothSet(a, b) || setters[a].wake == BothSet(b, a))
       && setters[b].wake == setters[a].wake && setters[b].fiber == setters[a].fiber
       && setters[b].res == NOT_SET && batch[i].res != NOT_SET && batch[j].res != NOT_SET
       && forall id :: id in setters && setters[id].fiber == setters[a].fiber ==> id == a || id == b
  }

  lemma PairAt(setters: Setters, batch: seq<Cqe>, i: nat, j: nat, h: nat)
    requires IsPair(setters, batch, i, j) && h < |batch|
    ensures var f, woken := setters[batch[i].data].fiber, WokenByAll(setters, batch);
            && (h == i ==> woken[h] == None)
            && (h == j ==> woken[h] == Some(f))
            && (h != i && h != j ==> woken[h] != Some(f))
  {
    WokenAt(setters, batch, h);
    assert forall c :: c in batch[..h] ==> c in batch;
    assert batch[h] in batch;
    ResultsAfter(setters, batch[..h]);
    StoreAllKeeps(setters, batch[..h], batch[h].data);
    if h == i {
      assert batch[j].data !in CqeIds(batch[..h]);
    } else if h == j {
      assert batch[..h][i] == batch[i];
    }
  }

  lemma HandIsDistinct(s: State, hand: seq<Cqe>)
    requires CountInv(s.fibers, s.setters, Named(s, hand))
    ensures Distinct(hand)
  {
    forall p, q | 0 <= p < q < |hand|
      ensures hand[p].data != hand[q].data
    {
      var id := CqeIds(hand)[p];
      assert multiset(CqeIds(hand))[id] <= Named(s, hand)[id] <= 1;
      TwiceCounts(CqeIds(hand), p, q);
    }
  }

  /** What a reachable ring holds can be dispatched, and each setter gets its result once. */
  lemma BatchIsLive(s: State, k: nat)
    requires Inv(s) && k <= |s.ring.q.cq|
    ensures AllLive(s.setters, s.ring.q.cq[..k]) && Distinct(s.ring.q.cq[..k])
    ensures forall c :: c in s.ring.q.cq[..k] ==> c.res != NOT_SET && s.setters[c.data].res == NOT_SET
  {
    var batch, t := s.ring.q.cq[..k], s.(ring := Reap(s.ring, k));
    ReapToHand(s, t, k);
    HandIsDistinct(t, batch);
    forall c | c in batch
      ensures Live(s.setters, c.data) && s.setters[c.data].res == NOT_SET
    {
      HandIsLive(t, batch, c);
    }
  }

  lemma TwiceCounts(ids: seq<SetterId>, p: nat, q: nat)
    requires p < q < |ids|
    ensures ids[p] == ids[q] ==> multiset(ids)[ids[p]] >= 2
  {
    assert ids == ids[..q] + [ids[q]] + ids[q + 1..];
    assert ids[..q][p] == ids[p];
    assert ids[p] in multiset(ids[..q]);
  }

  /** What a batch yields and what it does to the fibers belong together: exactly the fibers yielded
      were parked and are woken now, each was yielded once, and its wake is recorded. */
  ghost predicate YieldsTheWoken(s: State, t: State, woken: seq<Option<nat>>) {
    && |t.fibers| == |s.fibers|
    && (forall h :: 0 <= h < |woken| && woken[h].Some? ==>
          woken[h].value < |s.fibers| && s.fibers[woken[h].value].pc.Parked?)
    && (forall f: nat :: f < |s.fibers| ==>
          t.fibers[f] == if Some(f) in woken then s.fibers[f].(pc := Woken(Timed(s.fibers[f].pc))) else s.fibers[f])
    && (forall h, i :: 0 <= h < i < |woken| && woken[h].Some? ==> woken[h] != woken[i])
    && (forall f: nat, c: nat, parked ::
          t.wakes[Wake(f, c, parked)] == s.wakes[Wake(f, c, parked)] +
            if parked && f < |s.fibers| && c == s.fibers[f].call && Some(f) in woken then 1 else 0)
  }

  lemma WokenIfDone(s: State, hand: seq<Cqe>, c: Cqe)
    requires InvWith(s, hand) && c in hand
    ensures c.data.fiber < |s.fibers|
    ensures var f := c.data.fiber;
            WokenBy(s.setters, c) ==
              if s.fibers[f].pc.Parked? && AllSet(s.fibers, Store(s.setters, c), f) then Some(f) else None
  {
    HandIsLive(s, hand, c);
    StoreFibers(s.fibers, s.setters, c);
    WakesIffDone(s.fibers, s.setters, c);
  }

  lemma AwakeYields(s: State, setters: Setters, f: nat)
    requires f < |s.fibers| && s.fibers[f].pc.Parked?
    ensures var wakes := s.wakes + multiset{Wake(f, s.fibers[f].call, true)};
            YieldsTheWoken(s, s.(setters := setters, fibers := Awake(s.fibers, f), wakes := wakes), [Some(f)])
  {
    assert forall g: nat :: Some(g) in [Some(f)] <==> g == f;
  }

  lemma NothingYields(s: State, setters: Setters)
    ensures YieldsTheWoken(s, s.(setters := setters), [None])
  {
    assert forall g: nat :: Some(g) !in [None];
  }

  /** One more dispatch, in the state that the earlier ones of the batch leave. */
  lemma DeliverYields(s: State, hand: seq<Cqe>, c: Cqe)
    requires InvWith(s, hand) && c in hand
    ensures YieldsTheWoken(s, Deliver(s, c), [WokenBy(s.setters, c)])
  {
    DeliverShape(s, hand, c);
    WokenIfDone(s, hand, c);
    if WokenBy(s.setters, c).Some? {
      AwakeYields(s, Store(s.setters, c), c.data.fiber);
    } else {
      NothingYields(s, Store(s.setters, c));
    }
  }

  lemma YieldsBoth(s: State, t: State, u: State, woken: seq<Option<nat>>, last: Option<nat>)
    requires YieldsTheWoken(s, t, woken) && YieldsTheWoken(t, u, [last])
    ensures YieldsTheWoken(s, u, woken + [last])
  {
    assert last.Some? ==> last !in woken;
    assert forall w :: w in woken + [last] <==> w in woken || w == last;
    assert forall w :: w in [last] <==> w == last;
    var both := woken + [last];
    forall h, i | 0 <= h < i < |both| && both[h].Some?
      ensures both[h] != both[i]
    {
      assert both[h] == woken[h];
      if i == |woken| {
        assert both[h] in woken;
      }
    }
  }

  lemma {:induction false} DeliverAllYields(s: State, batch: seq<Cqe>, rest: seq<Cqe>)
    requires InvWith(s, batch + rest)
    ensures YieldsTheWoken(s, DeliverAll(s, batch), WokenByAll(s.setters, batch))
    ensures DeliverAll(s, batch).setters == StoreAll(s.setters, batch)
    decreases |batch|
  {
    if batch != [] {
      var n := |batch| - 1;
      var more := [batch[n]] + rest;
      assert batch + rest == batch[..n] + more;
      DeliverAllInv(s, batch[..n], more);
      DeliverAllYields(s, batch[..n], more);
      var t := DeliverAll(s, batch[..n]);
      assert batch[n] in more;
      DeliverYields(t, more, batch[n]);
      DeliverShape(t, more, batch[n]);
      YieldsBoth(s, t, Deliver(t, batch[n]), WokenByAll(s.setters, batch[..n]), WokenBy(t.setters, batch[n]));
    }
  }

  lemma PollManyYields(s: State)
    requires Inv(s) && Enabled(s, PollMany)
    ensures var k, t := Clip(BATCH, |s.ring.q.cq|), Apply(s, PollMany);
            && t.ring == Reap(s.ring, k) && t.setters == StoreAll(s.setters, s.ring.q.cq[..k])
            && YieldsTheWoken(s, t, WokenByAll(s.setters, s.ring.q.cq[..k]))
  {
    var k := Clip(BATCH, |s.ring.q.cq|);
    var t, batch := s.(ring := Reap(s.ring, k)), s.ring.q.cq[..k];
    ReapToHand(s, t, k);
    assert batch + [] == batch;
    DeliverAllYields(t, batch, []);
    DeliverAllRing(t, batch);
  }

  /** A `PollMany` step of any reachable state ends like as many single polls: same ring, same setters,
      and the fibers woken are those that the single polls yield, each once. */
  lemma PollManyIsSinglePolls(s: State)
    requires Inv(s) && Enabled(s, PollMany)
    ensures var t, singly := Apply(s, PollMany), PollSingly(s.ring, s.setters, Clip(BATCH, |s.ring.q.cq|));
            t.ring == singly.0 && t.setters == singly.1 && YieldsTheWoken(s, t, singly.2)
  {
    SingleIsBatch(s.ring, s.setters, Clip(BATCH, |s.ring.q.cq|));
    PollManyYields(s);
  }

  lemma BothPlacedIsTimed(fibers: Fibers, a: SetterId, b: SetterId)
    requires Current(fibers, a) && Current(fibers, b) && a.fiber == b.fiber && a != b
    ensures Timed(fibers[a.fiber].pc)
  {
    assert a.half == LinkTimeout || b.half == LinkTimeout;
  }

  /** Two completions for one fiber in a reachable batch are those of one timed call. */
  lemma SameFiberIsPair(s: State, k: nat, i: nat, j: nat)
    requires Inv(s) && i < j < k <= |s.ring.q.cq| && s.ring.q.cq[i].data.fiber == s.ring.q.cq[j].data.fiber
    ensures IsPair(s.setters, s.ring.q.cq[..k], i, j)
    ensures s.setters[s.ring.q.cq[i].data].fiber == s.ring.q.cq[i].data.fiber
    ensures s.ring.q.cq[i].data.fiber < |s.fibers| && Timed(s.fibers[s.ring.q.cq[i].data.fiber].pc)
  {
    BatchIsLive(s, k);
    var batch := s.ring.q.cq[..k];
    assert batch[i] in batch && batch[j] in batch && batch[i].data != batch[j].data;
    var f := batch[i].data.fiber;
    assert Current(s.fibers, batch[i].data) && Current(s.fibers, batch[j].data);
    BothPlacedIsTimed(s.fibers, batch[i].data, batch[j].data);
    TwoHalves(s.fibers, f);
    assert forall id :: id in s.setters && s.setters[id].fiber == f ==> Current(s.fibers, id);
  }

  /** Of all positions only the j-th yields f. */
  ghost predicate YieldsOnlyAt(woken: seq<Option<nat>>, j: nat, f: nat) {
    j < |woken| && woken[j] == Some(f) && forall h :: 0 <= h < |woken| && h != j ==> woken[h] != Some(f)
  }

  lemma PairYieldsOnce(setters: Setters, batch: seq<Cqe>, i: nat, j: nat)
    requires IsPair(setters, batch, i, j)
    ensures YieldsOnlyAt(WokenByAll(setters, batch), j, setters[batch[i].data].fiber)
    ensures WokenByAll(setters, batch)[i] == None
  {
    var f, woken := setters[batch[i].data].fiber, WokenByAll(setters, batch);
    PairAt(setters, batch, i, j, i);
    forall h | 0 <= h < |woken|
      ensures (h == j ==> woken[h] == Some(f)) && (h != j ==> woken[h] != Some(f))
    {
      PairAt(setters, batch, i, j, h);
    }
  }

  /** The fiber was parked in a timed call, and the step wakes it once. */
  ghost predicate WakesTimedOnce(s: State, t: State, f: nat) {
    && f < |s.fibers| && f < |t.fibers|
    && s.fibers[f].pc == Parked(true) && t.fibers[f] == s.fibers[f].(pc := Woken(true))
    && t.wakes[Wake(f, s.fibers[f].call, true)] == s.wakes[Wake(f, s.fibers[f].call, true)] + 1
  }

  lemma YieldWakes(s: State, t: State, woken: seq<Option<nat>>, j: nat, f: nat)
    requires YieldsTheWoken(s, t, woken) && j < |woken| && woken[j] == Some(f)
    requires f < |s.fibers| && Timed(s.fibers[f].pc)
    ensures WakesTimedOnce(s, t, f)
  {
    assert Some(f) in woken;
  }

  /** Two completions of one timed call in one batch wake its fiber once, at the second of them. */
  lemma PairWakesOnce(s: State, i: nat, j: nat)
    requires Inv(s) && Enabled(s, PollMany) && i < j < Clip(BATCH, |s.ring.q.cq|)
    requires s.ring.q.cq[i].data.fiber == s.ring.q.cq[j].data.fiber
    ensures var woken := WokenByAll(s.setters, s.ring.q.cq[..Clip(BATCH, |s.ring.q.cq|)]);
            woken[i] == None && YieldsOnlyAt(woken, j, s.ring.q.cq[i].data.fiber)
    ensures WakesTimedOnce(s, Apply(s, PollMany), s.ring.q.cq[i].data.fiber)
  {
    var k := Clip(BATCH, |s.ring.q.cq|);
    var f, batch := s.ring.q.cq[i].data.fiber, s.ring.q.cq[..k];
    SameFiberIsPair(s, k, i, j);
    PairYieldsOnce(s.setters, batch, i, j);
    PollManyYields(s);
    YieldWakes(s, Apply(s, PollMany), WokenByAll(s.setters, batch), j, f);
  }

  /** A `TryPoll` that waits is the system's two steps: with the queues the wait ends in, the ring is
      left as `RingPoller.TryPoll` leaves it, and the completion it had reaped itself is lost. */
  lemma WaitingPollIsTwoSteps(s: State, t: State, found: Queues)
    requires Enabled(s, Poll) && s.attempts + 1 >= s.maxAttempts && found.cq != []
    requires t.control == Waiting && t.ring == Apply(s, Poll).ring.(q := found)
    ensures Apply(s, Poll).control == Waiting && Enabled(t, WaitOver)
    ensures Apply(t, WaitOver).ring == AfterWait(s.ring, found)
    ensures Apply(t, WaitOver).control == Scheduler && Apply(t, WaitOver).attempts == 0
    ensures s.ring.q.cq != [] ==> Apply(s, Poll).dropped == s.dropped + multiset{s.ring.q.cq[0].data}
  {
    StepRing(t, WaitOver);
    DeliverRing(t.(ring := Reap(t.ring, 1), control := Scheduler, attempts := 0), t.ring.q.cq[0]);
  }

  // Busy polling.

  /** Calls of `TryPoll` that found nothing since the last one that reaped or waited. */
  ghost function EmptyPolls(states: seq<State>, steps: seq<Step>, n: nat): nat
    requires n <= |steps| < |states|
  {
    if n == 0 then 0
    else
      var s := states[n - 1];
      match steps[n - 1]
      case Poll =>
        if s.attempts + 1 >= s.maxAttempts || s.ring.q.cq != [] then 0 else EmptyPolls(states, steps, n - 1) + 1
      case WaitOver => 0
      case _ => EmptyPolls(states, steps, n - 1)
  }

  lemma StepAttempts(s: State, step: Step)
    requires Enabled(s, step)
    ensures var t := Apply(s, step);
            && t.maxAttempts == s.maxAttempts
            && (t.control == Waiting <==>
                  (step.Poll? && s.attempts + 1 >= s.maxAttempts) || (s.control == Waiting && !step.WaitOver?))
            && t.attempts == if step.WaitOver? then 0
                             else if step.Poll? then
                               (if s.attempts + 1 >= s.maxAttempts || s.ring.q.cq == [] then s.attempts + 1 else 0)
                             else s.attempts
  {
    match step
    case Poll => if s.ring.q.cq != [] { DeliverRing(s.(ring := Reap(s.ring, 1), attempts := 0), s.ring.q.cq[0]); }
    case WaitOver => DeliverRing(s.(ring := Reap(s.ring, 1), control := Scheduler, attempts := 0), s.ring.q.cq[0]);
    case PollMany =>
      var k := Clip(BATCH, |s.ring.q.cq|);
      DeliverAllRing(s.(ring := Reap(s.ring, k)), s.ring.q.cq[..k]);
    case _ =>
  }

  /** `attempts_` counts the empty polls, and stays below a positive maximum between calls. */
  lemma {:induction false} AttemptsCountEmptyPolls(states: seq<State>, steps: seq<Step>, n: nat)
    requires IsRun(states, steps) && Init(states[0]) && n <= |steps|
    ensures states[n].maxAttempts == states[0].maxAttempts
    ensures states[n].control != Waiting ==> states[n].attempts == EmptyPolls(states, steps, n)
    ensures states[n].control != Waiting && states[0].maxAttempts > 0 ==> states[n].attempts < states[n].maxAttempts
  {
    if n > 0 {
      AttemptsCountEmptyPolls(states, steps, n - 1);
      StepAttempts(states[n - 1], steps[n - 1]);
    }
  }

  /** The poll after maximum - 1 empty ones waits in the kernel, and no earlier one does. */
  lemma BusyPollBound(states: seq<State>, steps: seq<Step>, n: nat)
    requires IsRun(states, steps) && Init(states[0]) && n < |steps| && steps[n].Poll? && states[0].maxAttempts > 0
    ensures EmptyPolls(states, steps, n) <= states[0].maxAttempts - 1
    ensures states[n + 1].control == Waiting <==> EmptyPolls(states, steps, n) == states[0].maxAttempts - 1
  {
    AttemptsCountEmptyPolls(states, steps, n);
    StepAttempts(states[n], steps[n]);
  }

  // Lost completions.

  lemma {:induction false} Ascending(ms: seq<multiset<SetterId>>, n: nat, m: nat)
    requires n <= m < |ms| && forall i :: n <= i < m ==> ms[i] <= ms[i + 1]
    ensures ms[n] <= ms[m]
    decreases m - n
  {
    if n < m {
      Ascending(ms, n, m - 1);
    }
  }

  lemma DroppedGrows(states: seq<State>, steps: seq<Step>, n: nat, m: nat)
    requires IsRun(states, steps) && n <= m <= |steps|
    ensures states[n].dropped <= states[m].dropped
  {
    var ms := seq(|states|, i requires 0 <= i < |states| => states[i].dropped);
    forall i | n <= i < m
      ensures ms[i] <= ms[i + 1]
    {
      StepDropped(states[i], steps[i]);
    }
    Ascending(ms, n, m);
  }

  /** Nothing is lost in exactly the runs where no `TryPoll` both reaps and reaches the maximum. */
  lemma {:induction false} LosesNothingExactly(states: seq<State>, steps: seq<Step>, n: nat)
    requires IsRun(states, steps) && Init(states[0]) && n <= |steps|
    ensures states[n].dropped == multiset{} <==> forall i :: 0 <= i < n ==> !DropsCqe(states[i], steps[i])
  {
    if n > 0 {
      LosesNothingExactly(states, steps, n - 1);
      StepDropped(states[n - 1], steps[n - 1]);
      if DropsCqe(states[n - 1], steps[n - 1]) {
        assert states[n - 1].ring.q.cq[0].data in states[n].dropped;
      }
    }
  }

  /** A kernel result of a running call is in exactly one place: in its setter, in the completion
      queue, or lost. */
  lemma ReapedIsDispatchedOrLost(states: seq<State>, steps: seq<Step>, n: nat, id: SetterId)
    requires IsRun(states, steps) && Init(states[0]) && Sound(states, steps) && n <= |steps|
    requires id in states[n].results && id.fiber < |states[n].fibers| && id.call == states[n].fibers[id.fiber].call
    ensures var s := states[n];
            var stored := if ResultOf(s.setters, id) == s.results[id] then 1 else 0;
            stored + multiset(CqeIds(s.ring.q.cq))[id] + s.dropped[id] == 1
  {
    InitInv(states[0]);
    RunInv(states, steps, n);
    var s := states[n];
    assert CqeIds([]) == [];
    assert Uncompleted(s.ring.q)[id] == 0;
    assert Named(s, [])[id] == multiset(CqeIds(s.ring.q.cq))[id] + s.dropped[id];
  }

  /** A fiber whose completion was lost never leaves its call. */
  lemma LostMeansStuck(states: seq<State>, steps: seq<Step>, n: nat, m: nat, id: SetterId)
    requires IsRun(states, steps) && Init(states[0]) && Sound(states, steps) && n <= m <= |steps|
    requires id in states[n].dropped
    ensures id.fiber < |states[m].fibers| && states[m].fibers[id.fiber].call == id.call
    ensures states[m].fibers[id.fiber].pc.TryTimeout? || states[m].fibers[id.fiber].pc.Parked?
  {
    InitInv(states[0]);
    RunInv(states, steps, m);
    DroppedGrows(states, steps, n, m);
    var s := states[m];
    assert id in Named(s, []);
    NamedOnce(s, [], id);
  }
}
