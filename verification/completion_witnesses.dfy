/** Runs in which `ring_submit` does less than its callers need. */
module CompletionWitnesses {
  import opened Rings
  import opened Completion
  import opened CompletionLinks
  import opened CompletionRuns
  import opened CompletionAdjacency

  const OP0: SetterId := SetterId(0, 0, Operation)
  const TO0: SetterId := SetterId(0, 0, LinkTimeout)
  const OP1: SetterId := SetterId(1, 0, Operation)
  const OP2: SetterId := SetterId(2, 0, Operation)
  const OP3: SetterId := SetterId(3, 0, Operation)

  /** Fiber 2's plain call holds one of two slots, fiber 0's operation the other. */
  lemma BothSlotsTaken() returns (s: State)
    ensures Reachable(s) && s.control == Running(0) && !s.corrupt
    ensures s.ring.q == Queues(2, [Sqe(OP0, true)], [Sqe(OP2, false)], [], [])
    ensures |s.fibers| == 3 && s.fibers[0] == Fiber(0, TryTimeout, false) && s.fibers[1] == Fiber(0, Idle, false)
    ensures s.fibers[2].pc == Parked(false)
    ensures s.setters.Keys == {OP0, TO0, OP2}
  {
    s := ReachStart(2, 3, 1_000_000);
    s := Reach(s, Begin(2, false));
    s := Reach(s, Attempt(0));
    assert s.ring.q == Queues(2, [], [Sqe(OP2, false)], [], []);
    s := Reach(s, Begin(0, true));
    s := Reach(s, Attempt(0));
  }

  /** Fiber 0 is between its halves on a ring of two entries, fiber 2 took the other slot first and
      the kernel has just freed it. */
  lemma HalfPlaced() returns (s: State)
    ensures Reachable(s) && s.control == Scheduler && !s.corrupt
    ensures s.ring.q == Queues(2, [Sqe(OP0, true)], [], [OP2], [])
    ensures |s.fibers| == 3 && s.fibers[0] == Fiber(0, TryTimeout, true) && s.fibers[1] == Fiber(0, Idle, false)
    ensures s.fibers[2].pc == Parked(false)
    ensures s.setters.Keys == {OP0, TO0, OP2}
  {
    s := BothSlotsTaken();
    s := Reach(s, Attempt(0));
    s := Reach(s, KernelTake(1));
    assert SqeIds([Sqe(OP2, false)]) == [OP2];
  }

  /** Another fiber's SQE lands between an operation and its timeout: the submit that placed it
      flushed the operation alone. */
  lemma ForeignSqeBetween() returns (s: State)
    ensures Reachable(s) && s.control == Scheduler && !s.corrupt
    ensures s.ring.q == Queues(2, [], [Sqe(OP0, true), Sqe(OP1, false)], [OP2], [])
    ensures |s.fibers| == 3 && s.fibers[0] == Fiber(0, TryTimeout, true)
    ensures s.setters.Keys == {OP0, TO0, OP1, OP2}
  {
    s := HalfPlaced();
    s := Reach(s, Begin(1, false));
    s := Reach(s, Attempt(0));
    assert SqeIds([]) == [];
  }

  /** The timeout then goes out alone and the submit check fails. */
  lemma CheckFails() returns (s: State)
    ensures Reachable(s) && Enabled(s, Attempt(0)) && FailsCheck(s, Attempt(0))
    ensures s.control == Running(0) && |s.fibers| == 3 && s.fibers[0] == Fiber(0, TryTimeout, true) && !s.corrupt
    ensures s.ring.q == Queues(2, [], [], [OP2, OP0, OP1], [])
    ensures s.setters.Keys == {OP0, TO0, OP1, OP2}
  {
    s := ForeignSqeBetween();
    s := Reach(s, KernelTake(2));
    assert SqeIds([Sqe(OP0, true), Sqe(OP1, false)]) == [OP0, OP1];
    s := Reach(s, Resume(0));
    assert Published(s) == [Sqe(TO0, false)];
  }

  /** The completion of the abandoned operation is written into a frame that no longer exists. */
  lemma FailedCheckCorrupts() returns (t: State)
    ensures Reachable(t) && t.corrupt
  {
    var s := CheckFails();
    t := Reach(s, Attempt(0));
    assert OP0 !in t.setters && t.ring.q.cq == [];
    assert t.ring.q.inflight == [OP2, OP0, OP1];
    assert t.control == Scheduler;
    t := Reach(t, KernelComplete(1, 0));
    t := PollDeadSetter(t);
  }

  lemma PollDeadSetter(s: State) returns (t: State)
    requires Reachable(s) && s.control == Scheduler && |s.ring.q.cq| == 1 && s.ring.q.cq[0].data !in s.setters
    ensures Reachable(t) && t.corrupt
  {
    var batch := s.ring.q.cq[..1];
    var r := s.(ring := Reap(s.ring, 1));
    assert |batch| == 1 && batch[..|batch| - 1] == [];
    assert DeliverAll(r, []) == r;
    assert DeliverAll(r, batch) == Deliver(r, batch[0]);
    t := Reach(s, PollMany);
  }

  /** Two timed calls clog a ring of two entries: from here nobody gets an SQE again. */
  lemma TwoTimedCallsClog() returns (s: State)
    ensures Reachable(s) && Clogged(s.ring.q) && s.control == Scheduler
    ensures |s.fibers| == 3 && s.fibers[0].pc.TryTimeout? && s.fibers[1].pc.TryTimeout?
  {
    s := HalfPlaced();
    s := Reach(s, Begin(1, true));
    s := Reach(s, Attempt(0));
    assert s.ring.q.built == [Sqe(OP0, true), Sqe(OP1, true)];
    s := Reach(s, Attempt(0));
  }

  lemma TwoPlainCalls() returns (s: State)
    ensures Reachable(s) && s.control == Scheduler
    ensures s.ring.q == Queues(3, [], [Sqe(OP2, false), Sqe(OP3, false)], [], [])
    ensures |s.fibers| == 4 && s.fibers[0] == Fiber(0, Idle, false) && s.fibers[1] == Fiber(0, Idle, false)
  {
    s := ReachStart(3, 4, 1_000_000);
    s := Reach(s, Begin(2, false));
    s := Reach(s, Attempt(0));
    assert s.ring.q == Queues(3, [], [Sqe(OP2, false)], [], []);
    s := Reach(s, Begin(3, false));
    s := Reach(s, Attempt(0));
  }

  /** On a ring of three entries fiber 0 waits behind its operation, with the plain calls of fibers 2
      and 3 in the other slots, of which the kernel has taken the first. */
  lemma FirstHalfPlaced() returns (s: State)
    ensures Reachable(s) && s.control == Scheduler
    ensures s.ring.q == Queues(3, [Sqe(OP0, true)], [Sqe(OP3, false)], [OP2], [])
    ensures |s.fibers| == 4 && s.fibers[0] == Fiber(0, TryTimeout, true) && s.fibers[1] == Fiber(0, Idle, false)
  {
    s := TwoPlainCalls();
    s := Reach(s, Begin(0, true));
    s := Reach(s, Attempt(0));
    s := Reach(s, Attempt(0));
    s := Reach(s, KernelTake(1));
    assert SqeIds([Sqe(OP2, false)]) == [OP2];
  }

  /** Fiber 1 then builds its own operation behind that of fiber 0 and waits as well. */
  lemma BothHalfPlaced() returns (s: State)
    ensures Reachable(s) && s.control == Scheduler
    ensures s.ring.q == Queues(3, [Sqe(OP0, true), Sqe(OP1, true)], [], [OP2, OP3], [])
    ensures |s.fibers| == 4 && s.fibers[0] == Fiber(0, TryTimeout, true) && s.fibers[1].pc.TryTimeout?
  {
    s := FirstHalfPlaced();
    s := Reach(s, Begin(1, true));
    s := Reach(s, Attempt(0));
    s := Reach(s, Attempt(0));
    s := Reach(s, KernelTake(1));
    assert SqeIds([Sqe(OP3, false)]) == [OP3];
  }

  /** The timeout of fiber 0 is placed behind the operation of fiber 1, which links to it, and there is
      no way for the submit check to fail. */
  lemma TimeoutGuardsAnother() returns (s: State)
    ensures Reachable(s) && s.control == Running(0) && |s.fibers| == 4 && s.fibers[0].pc.TryTimeout?
    ensures CanGetSqe(s.ring.q)
    ensures Published(s) == [Sqe(OP0, true), Sqe(OP1, true), Sqe(TO0, false)]
    ensures Precedes(s, Sqe(OP1, true)) && !CheckCanFail(s)
  {
    s := BothHalfPlaced();
    s := Reach(s, Resume(0));
    assert Published(s) == [Sqe(OP0, true), Sqe(OP1, true), Sqe(TO0, false)];
    CheckCanFailExactly(s, 0);
  }

  /** A lone call is in flight and the poller has found nothing n times. `has_pending` held each time. */
  lemma {:induction false} ReachEmptyPolls(maxAttempts: nat, n: nat) returns (s: State)
    requires n == 0 || n < maxAttempts
    ensures Reachable(s) && s.control == Scheduler && s.attempts == n && s.maxAttempts == maxAttempts
    ensures s.ring.q == Queues(8, [], [], [OP0], []) && s.ring.pending == 1
    ensures |s.fibers| == 1 && s.fibers[0].pc == Parked(false) && s.dropped == multiset{}
  {
    if n == 0 {
      s := ReachStart(8, 1, maxAttempts);
      s := Reach(s, Begin(0, false));
      s := Reach(s, Attempt(1));
      assert SqeIds([Sqe(OP0, false)]) == [OP0];
    } else {
      s := ReachEmptyPolls(maxAttempts, n - 1);
      s := Reach(s, Poll);
    }
  }

  /** Whatever the maximum, a lone call can lose its completion to the poll that reaches it: the
      poller then waits for a completion that will never come, and no step is possible at all. */
  lemma LostCompletionDeadlocks(maxAttempts: nat) returns (s: State)
    ensures Reachable(s) && s.control == Waiting && s.ring.pending == 0
    ensures |s.fibers| == 1 && s.fibers[0].pc == Parked(false) && s.dropped == multiset{OP0}
    ensures forall step :: !Enabled(s, step)
  {
    s := ReachEmptyPolls(maxAttempts, if maxAttempts == 0 then 0 else maxAttempts - 1);
    s := Reach(s, KernelComplete(0, 5));
    s := Reach(s, Poll);
  }
}
