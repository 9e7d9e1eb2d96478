/** Fibers, ring, poller and kernel as one step system (ring2/ring2/submitter.cc, ring.cc,
    poller.cc). Fibers give up control only at `tf::Yield` and `Suspend`; the kernel acts at any
    time. Everything after `corrupt` in `State` is history that no step reads. */
module Completion {
  import opened Rings
  import opened Pollers
  import opened Submitters

  /** Where a fiber is: `Try...` waits for an SQE, `Failed` left its call by an error. */
  datatype Pc = Idle | TryPlain | TryOp | TryTimeout | Parked(timed: bool) | Woken(timed: bool) | Failed
  datatype Fiber = Fiber(call: nat, pc: Pc, starved: bool)
  /** Who runs: the scheduler, a fiber, or a poller blocked in `io_uring_wait_cqe`. */
  datatype Control = Scheduler | Running(fiber: nat) | Waiting

  datatype Return = Return(fiber: nat, call: nat, timed: bool, outcome: Outcome)
  /** The scheduler got `fiber` from `dispatch` during its given call. */
  datatype Wake = Wake(fiber: nat, call: nat, parked: bool)

  datatype State = State(
    ring: RingState, setters: Setters, fibers: seq<Fiber>, control: Control,
    attempts: nat, maxAttempts: nat, corrupt: bool,
    results: map<SetterId, int>, dropped: multiset<SetterId>, wakes: multiset<Wake>, log: seq<Return>)

  datatype Step =
    | Begin(fiber: nat, timed: bool)
    | Resume(fiber: nat)
    | Attempt(taken: nat)
    | KernelTake(k: nat)
    | KernelComplete(i: nat, res: int)
    | Poll
    | WaitOver
    | PollMany
    | Finish(fiber: nat)

  predicate Init(s: State) {
    && s.ring == RingState(Queues(s.ring.q.entries, [], [], [], []), 0, 0, 0) && s.ring.q.entries > 0
    && s.setters == map[] && s.control == Scheduler && s.attempts == 0 && !s.corrupt
    && (forall f :: 0 <= f < |s.fibers| ==> s.fibers[f] == Fiber(0, Idle, false))
    && s.results == map[] && s.dropped == multiset{} && s.wakes == multiset{} && s.log == []
  }

  predicate InCall(pc: Pc) {
    !pc.Idle? && !pc.Failed?
  }

  predicate Timed(pc: Pc) {
    pc.TryOp? || pc.TryTimeout? || (pc.Parked? && pc.timed) || (pc.Woken? && pc.timed)
  }

  predicate Trying(pc: Pc) {
    pc.TryPlain? || pc.TryOp? || pc.TryTimeout?
  }

  predicate Enabled(s: State, step: Step) {
    match step
    case Begin(f, _) => s.control == Scheduler && f < |s.fibers| && s.fibers[f].pc.Idle?
    case Resume(f) => s.control == Scheduler && f < |s.fibers| && Trying(s.fibers[f].pc)
    case Attempt(taken) =>
      && s.control.Running? && s.control.fiber < |s.fibers| && Trying(s.fibers[s.control.fiber].pc)
      && LinkSafe(Published(s), taken)
    case KernelTake(k) => 0 < k && LinkSafe(s.ring.q.visible, k)
    case KernelComplete(i, res) => i < |s.ring.q.inflight| && KernelResult(res)
    case Poll => s.control == Scheduler
    case WaitOver => s.control == Waiting && s.ring.q.cq != []
    case PollMany => s.control == Scheduler
    case Finish(f) => s.control == Scheduler && f < |s.fibers| && s.fibers[f].pc.Woken?
  }

  function Id(fibers: seq<Fiber>, f: nat, half: Half): SetterId
    requires f < |fibers|
  {
    SetterId(f, fibers[f].call, half)
  }

  /** The SQE the running fiber is trying to place. */
  function NextSqe(s: State, f: nat): Sqe
    requires f < |s.fibers|
  {
    match s.fibers[f].pc
    case TryOp => Sqe(Id(s.fibers, f, Operation), true)
    case TryTimeout => Sqe(Id(s.fibers, f, LinkTimeout), false)
    case _ => Sqe(Id(s.fibers, f, Operation), false)
  }

  /** What the kernel could see right after the running fiber's flush. */
  function Published(s: State): seq<Sqe>
    requires s.control.Running? && s.control.fiber < |s.fibers|
  {
    s.ring.q.visible + s.ring.q.built + [NextSqe(s, s.control.fiber)]
  }

  function Apply(s: State, step: Step): State
    requires Enabled(s, step)
  {
    match step
    case Begin(f, timed) => BeginCall(s, f, timed)
    case Resume(f) => s.(control := Running(f))
    case Attempt(taken) => TryToPlace(s, s.control.fiber, taken)
    case KernelTake(k) => s.(ring := s.ring.(q := Take(s.ring.q, k)))
    case KernelComplete(i, res) =>
      s.(ring := s.ring.(q := Complete(s.ring.q, i, res)), results := s.results[s.ring.q.inflight[i] := res])
    case Poll => PollOnce(s)
    case WaitOver => Deliver(s.(ring := Reap(s.ring, 1), control := Scheduler, attempts := 0), s.ring.q.cq[0])
    case PollMany =>
      var k := Clip(BATCH, |s.ring.q.cq|);
      DeliverAll(s.(ring := Reap(s.ring, k)), s.ring.q.cq[..k])
    case Finish(f) => FinishCall(s, f)
  }

  function SetPc(s: State, f: nat, pc: Pc): State
    requires f < |s.fibers|
  {
    s.(fibers := s.fibers[f := s.fibers[f].(pc := pc)])
  }

  function BeginCall(s: State, f: nat, timed: bool): State
    requires f < |s.fibers|
  {
    var op, timeout := Id(s.fibers, f, Operation), Id(s.fibers, f, LinkTimeout);
    s.(setters := if timed then WithTimed(s.setters, op, timeout, f) else WithPlain(s.setters, op, f),
       control := Running(f),
       fibers := s.fibers[f := Fiber(s.fibers[f].call, if timed then TryOp else TryPlain, false)])
  }

  /** One turn of the loop in `Ring::submit`, and on success the code up to the next switch. */
  function TryToPlace(s: State, f: nat, taken: nat): State
    requires f < |s.fibers|
  {
    var fiber := s.fibers[f];
    if !CanGetSqe(s.ring.q) then
      s.(ring := Starve(s.ring), control := Scheduler, fibers := s.fibers[f := fiber.(starved := true)])
    else
      var placed := s.(ring := Place(s.ring, fiber.starved, NextSqe(s, f), fiber.pc.TryOp?, taken));
      match fiber.pc
      case TryOp => placed.(fibers := s.fibers[f := Fiber(fiber.call, TryTimeout, false)])
      case TryTimeout =>
        if SubmitOk(|placed.ring.q.visible|) then SetPc(placed.(control := Scheduler), f, Parked(true))
        else Abandon(placed.(control := Scheduler), f)
      case _ => SetPc(placed.(control := Scheduler), f, Parked(false))
  }

  /** The call is left by an error: its frame, with both setters, is gone. */
  function Abandon(s: State, f: nat): State
    requires f < |s.fibers|
  {
    SetPc(s.(setters := s.setters - {Id(s.fibers, f, Operation), Id(s.fibers, f, LinkTimeout)}), f, Failed)
  }

  function PollOnce(s: State): State {
    if s.attempts + 1 >= s.maxAttempts then
      var waiting := s.(control := Waiting, attempts := s.attempts + 1);
      if s.ring.q.cq == [] then waiting
      else waiting.(ring := Reap(s.ring, 1), dropped := s.dropped + multiset{s.ring.q.cq[0].data})
    else if s.ring.q.cq == [] then
      s.(attempts := s.attempts + 1)
    else
      Deliver(s.(ring := Reap(s.ring, 1), attempts := 0), s.ring.q.cq[0])
  }

  function Deliver(s: State, c: Cqe): State {
    if !Live(s.setters, c.data) then s.(corrupt := true)
    else
      var stored := s.(setters := Store(s.setters, c));
      match WokenBy(s.setters, c)
      case None => stored
      case Some(f) => WakeUp(stored, f)
  }

  function DeliverAll(s: State, batch: seq<Cqe>): State {
    if batch == [] then s
    else Deliver(DeliverAll(s, batch[..|batch| - 1]), batch[|batch| - 1])
  }

  function WakeUp(s: State, f: nat): State {
    if f < |s.fibers| && s.fibers[f].pc.Parked? then
      SetPc(s.(wakes := s.wakes + multiset{Wake(f, s.fibers[f].call, true)}), f, Woken(s.fibers[f].pc.timed))
    else
      s.(wakes := s.wakes + multiset{Wake(f, if f < |s.fibers| then s.fibers[f].call else 0, false)})
  }

  function FinishCall(s: State, f: nat): State
    requires f < |s.fibers|
  {
    var op, timeout := Id(s.fibers, f, Operation), Id(s.fibers, f, LinkTimeout);
    var timed := Timed(s.fibers[f].pc);
    var opRes, timeoutRes := ResultOf(s.setters, op), ResultOf(s.setters, timeout);
    var outcome := if timed then TimedOutcome(opRes, timeoutRes) else PlainOutcome(opRes);
    s.(setters := s.setters - {op, timeout},
       fibers := s.fibers[f := Fiber(s.fibers[f].call + 1, Idle, false)],
       log := s.log + [Return(f, s.fibers[f].call, timed, outcome)])
  }

  /** A run: the states it passes through, one more than its steps. */
  ghost predicate IsRun(states: seq<State>, steps: seq<Step>) {
    && |states| == |steps| + 1
    && forall i :: 0 <= i < |steps| ==> Enabled(states[i], steps[i]) && states[i + 1] == Apply(states[i], steps[i])
  }

  /** The timed call's check of its submit count fails in this step. */
  predicate FailsCheck(s: State, step: Step) {
    && step.Attempt? && Enabled(s, step) && CanGetSqe(s.ring.q)
    && s.fibers[s.control.fiber].pc.TryTimeout?
    && !SubmitOk(|Published(s)| - step.taken)
  }

  /** This `TryPoll` reaps a completion and then overwrites it. */
  predicate DropsCqe(s: State, step: Step) {
    step.Poll? && s.ring.q.cq != [] && s.attempts + 1 >= s.maxAttempts
  }
}
