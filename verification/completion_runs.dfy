/** Building runs of `Completion` step by step. */
module CompletionRuns {
  import opened Rings
  import opened Completion

  ghost predicate RunBetween(states: seq<State>, steps: seq<Step>, s: State, t: State) {
    IsRun(states, steps) && states[0] == s && states[|steps|] == t
  }

  /** Some run goes from s to t. */
  ghost predicate Leads(s: State, t: State) {
    exists states, steps :: RunBetween(states, steps, s, t)
  }

  ghost predicate Reachable(s: State) {
    exists start :: Init(start) && Leads(start, s)
  }

  /** The start of a program: entries of the ring, fibers, maximum of the poller. */
  function Start(entries: nat, fibers: nat, maxAttempts: nat): State {
    State(RingState(Queues(entries, [], [], [], []), 0, 0, 0), map[], seq(fibers, _ => Fiber(0, Idle, false)),
          Scheduler, 0, maxAttempts, false, map[], multiset{}, multiset{}, [])
  }

  lemma LeadsNowhere(s: State)
    ensures Leads(s, s)
  {
    assert RunBetween([s], [], s, s);
  }

  lemma ExtendRun(states: seq<State>, steps: seq<Step>, s: State, u: State, step: Step)
    requires RunBetween(states, steps, s, u) && Enabled(u, step)
    ensures RunBetween(states + [Apply(u, step)], steps + [step], s, Apply(u, step))
  {
    var states', steps' := states + [Apply(u, step)], steps + [step];
    forall i | 0 <= i < |steps'|
      ensures Enabled(states'[i], steps'[i]) && states'[i + 1] == Apply(states'[i], steps'[i])
    {
      if i < |steps| {
        assert states'[i] == states[i] && states'[i + 1] == states[i + 1] && steps'[i] == steps[i];
      }
    }
  }

  /** One step more. */
  lemma Go(s: State, u: State, step: Step) returns (t: State)
    requires Leads(s, u) && Enabled(u, step)
    ensures t == Apply(u, step) && Leads(s, t)
  {
    t := Apply(u, step);
    var states, steps :| RunBetween(states, steps, s, u);
    ExtendRun(states, steps, s, u, step);
  }

  lemma ReachStart(entries: nat, fibers: nat, maxAttempts: nat) returns (s: State)
    requires entries > 0
    ensures s == Start(entries, fibers, maxAttempts) && Reachable(s)
  {
    s := Start(entries, fibers, maxAttempts);
    LeadsNowhere(s);
  }

  lemma Reach(s: State, step: Step) returns (t: State)
    requires Reachable(s) && Enabled(s, step)
    ensures t == Apply(s, step) && Reachable(t)
  {
    var start :| Init(start) && Leads(start, s);
    t := Go(start, s, step);
  }
}
