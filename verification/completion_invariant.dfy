/** What holds of every reachable state of `Completion`, as long as no submit check failed. */
module CompletionInvariant {
  import opened Rings
  import opened Pollers
  import opened Submitters
  import opened Completion

  type Fibers = seq<Fiber>
  type Results = map<SetterId, int>

  /** The setter belongs to the call its fiber is in. */
  ghost predicate Current(fibers: Fibers, id: SetterId) {
    && id.fiber < |fibers| && id.call == fibers[id.fiber].call && InCall(fibers[id.fiber].pc)
    && (id.half == LinkTimeout ==> Timed(fibers[id.fiber].pc))
  }

  /** Its SQE was built. */
  ghost predicate Placed(fibers: Fibers, id: SetterId) {
    && id.fiber < |fibers|
    && match fibers[id.fiber].pc
       case TryTimeout => id.half == Operation
       case Parked(_) => true
       case Woken(_) => true
       case _ => false
  }

  /** Its SQE was built and its result has not been dispatched. */
  ghost predicate Outstanding(fibers: Fibers, setters: Setters, id: SetterId) {
    Current(fibers, id) && Placed(fibers, id) && ResultOf(setters, id) == NOT_SET
  }

  ghost predicate AllSet(fibers: Fibers, setters: Setters, f: nat)
    requires f < |fibers|
  {
    && ResultOf(setters, Id(fibers, f, Operation)) != NOT_SET
    && (Timed(fibers[f].pc) ==> ResultOf(setters, Id(fibers, f, LinkTimeout)) != NOT_SET)
  }

  ghost function WakeRule(fibers: Fibers, f: nat): ShouldWake
    requires f < |fibers|
  {
    if Timed(fibers[f].pc) then BothSet(Id(fibers, f, Operation), Id(fibers, f, LinkTimeout)) else Always
  }

  /** Setters exist exactly while their call lasts. */
  ghost predicate SettersInv(fibers: Fibers, setters: Setters) {
    && (forall id :: id in setters <==> Current(fibers, id))
    && (forall id :: id in setters ==> setters[id].fiber == id.fiber && setters[id].wake == WakeRule(fibers, id.fiber))
    && (forall id :: id in setters && setters[id].res != NOT_SET ==> Placed(fibers, id))
  }

  ghost predicate FibersInv(fibers: Fibers, setters: Setters) {
    forall f: nat :: f < |fibers| ==>
      && !fibers[f].pc.Failed?
      && (fibers[f].pc.Parked? ==> !AllSet(fibers, setters, f))
      && (fibers[f].pc.Woken? ==> AllSet(fibers, setters, f))
  }

  /** Every `user_data` in the queues, among the completions `hand` that the poller has reaped but
      not dispatched, and among the dropped ones. */
  ghost function Named(s: State, hand: seq<Cqe>): multiset<SetterId> {
    Load(s.ring.q) + multiset(CqeIds(hand)) + s.dropped
  }

  /** Each outstanding setter is named once, and nothing else is named. */
  ghost predicate CountInv(fibers: Fibers, setters: Setters, named: multiset<SetterId>) {
    forall id :: named[id] == if Outstanding(fibers, setters, id) then 1 else 0
  }

  /** The kernel reported each result once, for an SQE that had been built. */
  ghost predicate ResultsInv(fibers: Fibers, setters: Setters, results: Results) {
    && (forall id :: id in results ==>
          KernelResult(results[id]) && id.fiber < |fibers| && id.call <= fibers[id.fiber].call)
    && (forall id :: id in results && id.fiber < |fibers| && id.call == fibers[id.fiber].call ==>
          Current(fibers, id) && Placed(fibers, id))
    && (forall id :: id in setters && setters[id].res != NOT_SET ==> id in results && results[id] == setters[id].res)
  }

  ghost predicate Fresh(results: Results, uncompleted: multiset<SetterId>) {
    forall id :: id in uncompleted ==> id !in results
  }

  ghost predicate Agrees(results: Results, cqes: seq<Cqe>) {
    forall c :: c in cqes ==> c.data in results && results[c.data] == c.res
  }

  /** Only the operation of a fiber between the halves of a timed call is built and not flushed. */
  ghost predicate BuiltInv(fibers: Fibers, built: seq<Sqe>) {
    forall b :: b in built ==>
      && b.data.fiber < |fibers| && fibers[b.data.fiber].pc.TryTimeout?
      && b == Sqe(Id(fibers, b.data.fiber, Operation), true)
  }

  ghost predicate ControlInv(fibers: Fibers, control: Control) {
    control.Running? ==> control.fiber < |fibers| && Trying(fibers[control.fiber].pc)
  }

  ghost predicate WokenIn(fibers: Fibers, f: nat, c: nat) {
    f < |fibers| && (c < fibers[f].call || (c == fibers[f].call && fibers[f].pc.Woken?))
  }

  /** A fiber was woken once in each call it completed or is about to complete, and was parked. */
  ghost predicate WakesInv(fibers: Fibers, wakes: multiset<Wake>) {
    forall f, c, parked :: wakes[Wake(f, c, parked)] == if parked && WokenIn(fibers, f, c) then 1 else 0
  }

  /** What a call with these kernel results returns. */
  ghost predicate ReturnsOwn(results: Results, r: Return) {
    var op, timeout := SetterId(r.fiber, r.call, Operation), SetterId(r.fiber, r.call, LinkTimeout);
    && op in results && (r.timed ==> timeout in results)
    && r.outcome == if r.timed then TimedOutcome(results[op], results[timeout]) else Value(results[op])
  }

  ghost predicate LogInv(results: Results, log: seq<Return>) {
    forall r :: r in log ==> ReturnsOwn(results, r)
  }

  ghost predicate InvWith(s: State, hand: seq<Cqe>) {
    && SettersInv(s.fibers, s.setters) && FibersInv(s.fibers, s.setters)
    && CountInv(s.fibers, s.setters, Named(s, hand))
    && ResultsInv(s.fibers, s.setters, s.results) && Fresh(s.results, Uncompleted(s.ring.q))
    && Agrees(s.results, s.ring.q.cq) && Agrees(s.results, hand)
    && BuiltInv(s.fibers, s.ring.q.built) && ControlInv(s.fibers, s.control)
    && WakesInv(s.fibers, s.wakes) && LogInv(s.results, s.log)
    && |s.ring.q.built| + |s.ring.q.visible| <= s.ring.q.entries && 0 < s.ring.q.entries
    && !s.corrupt
  }

  ghost predicate Inv(s: State) {
    InvWith(s, [])
  }

  lemma InitInv(s: State)
    requires Init(s)
    ensures Inv(s)
  {
    assert SqeIds([]) == [] && CqeIds([]) == [];
  }

  // Beginning a call.

  lemma BeginSetters(s: State, f: nat, timed: bool)
    requires SettersInv(s.fibers, s.setters) && Enabled(s, Begin(f, timed))
    ensures SettersInv(BeginCall(s, f, timed).fibers, BeginCall(s, f, timed).setters)
  {
    var t := BeginCall(s, f, timed);
    forall id
      ensures id in t.setters <==> Current(t.fibers, id)
      ensures id in t.setters && id.fiber != f ==> id in s.setters && t.setters[id] == s.setters[id]
    {
      assert id in s.setters <==> Current(s.fibers, id);
    }
  }

  lemma BeginFibers(s: State, f: nat, timed: bool)
    requires FibersInv(s.fibers, s.setters) && Enabled(s, Begin(f, timed))
    ensures FibersInv(BeginCall(s, f, timed).fibers, BeginCall(s, f, timed).setters)
  {
  }

  lemma BeginCounts(s: State, f: nat, timed: bool)
    requires Enabled(s, Begin(f, timed))
    ensures var t := BeginCall(s, f, timed);
            forall id :: Outstanding(t.fibers, t.setters, id) == Outstanding(s.fibers, s.setters, id)
  {
  }

  lemma BeginResults(s: State, f: nat, timed: bool)
    requires ResultsInv(s.fibers, s.setters, s.results) && Enabled(s, Begin(f, timed))
    ensures ResultsInv(BeginCall(s, f, timed).fibers, BeginCall(s, f, timed).setters, s.results)
  {
  }

  lemma BeginOthers(s: State, f: nat, timed: bool)
    requires Enabled(s, Begin(f, timed))
    requires BuiltInv(s.fibers, s.ring.q.built) && WakesInv(s.fibers, s.wakes)
    ensures BuiltInv(BeginCall(s, f, timed).fibers, s.ring.q.built) && WakesInv(BeginCall(s, f, timed).fibers, s.wakes)
  {
    var t := BeginCall(s, f, timed);
    assert forall g, c :: WokenIn(t.fibers, g, c) == WokenIn(s.fibers, g, c);
  }

  lemma SameCounts(fibers: Fibers, setters: Setters, fibers': Fibers, setters': Setters, named: multiset<SetterId>)
    requires CountInv(fibers, setters, named)
    requires forall id :: Outstanding(fibers', setters', id) == Outstanding(fibers, setters, id)
    ensures CountInv(fibers', setters', named)
  {
  }

  lemma BeginInv(s: State, f: nat, timed: bool)
    requires Inv(s) && Enabled(s, Begin(f, timed))
    ensures Inv(BeginCall(s, f, timed))
  {
    var t := BeginCall(s, f, timed);
    BeginSetters(s, f, timed);
    BeginFibers(s, f, timed);
    BeginCounts(s, f, timed);
    SameCounts(s.fibers, s.setters, t.fibers, t.setters, Named(s, []));
    BeginResults(s, f, timed);
    BeginOthers(s, f, timed);
  }

  // The kernel's steps.

  lemma TakeInv(s: State, k: nat)
    requires Inv(s) && Enabled(s, KernelTake(k))
    ensures Inv(Apply(s, KernelTake(k)))
  {
    TakeLoad(s.ring.q, k);
  }

  lemma NewResult(fibers: Fibers, setters: Setters, results: Results, id: SetterId, res: int)
    requires ResultsInv(fibers, setters, results)
    requires id !in results && KernelResult(res) && Current(fibers, id) && Placed(fibers, id)
    ensures ResultsInv(fibers, setters, results[id := res])
  {
  }

  lemma NewResultKeepsLog(results: Results, log: seq<Return>, id: SetterId, res: int)
    requires LogInv(results, log) && id !in results
    ensures LogInv(results[id := res], log)
  {
  }

  lemma NewResultAgrees(results: Results, cqes: seq<Cqe>, id: SetterId, res: int)
    requires Agrees(results, cqes) && id !in results
    ensures Agrees(results[id := res], cqes) && Agrees(results[id := res], cqes + [Cqe(id, res)])
  {
  }

  lemma NewResultFresh(results: Results, before: multiset<SetterId>, after: multiset<SetterId>, id: SetterId, res: int)
    requires Fresh(results, before) && before == after + multiset{id} && before[id] <= 1
    ensures Fresh(results[id := res], after) && id !in results
  {
    assert before[id] == after[id] + 1;
    assert forall i :: i in after ==> i in before;
  }

  lemma LoadBounds(s: State, hand: seq<Cqe>, id: SetterId)
    ensures Uncompleted(s.ring.q)[id] <= Load(s.ring.q)[id] <= Named(s, hand)[id]
  {
  }

  lemma NamedOnce(s: State, hand: seq<Cqe>, id: SetterId)
    requires CountInv(s.fibers, s.setters, Named(s, hand)) && id in Named(s, hand)
    ensures Named(s, hand)[id] == 1 && Outstanding(s.fibers, s.setters, id)
  {
  }

  lemma CompleteInv(s: State, i: nat, res: int)
    requires Inv(s) && Enabled(s, KernelComplete(i, res))
    ensures Inv(Apply(s, KernelComplete(i, res)))
  {
    var t := Apply(s, KernelComplete(i, res));
    var id := s.ring.q.inflight[i];
    CompleteLoad(s.ring.q, i, res);
    LoadBounds(s, [], id);
    NamedOnce(s, [], id);
    NewResultFresh(s.results, Uncompleted(s.ring.q), Uncompleted(t.ring.q), id, res);
    NewResult(s.fibers, s.setters, s.results, id, res);
    NewResultKeepsLog(s.results, s.log, id, res);
    NewResultAgrees(s.results, s.ring.q.cq, id, res);
    assert Named(t, []) == Named(s, []);
  }

  // Waiting for a slot.

  lemma StarvedFibers(s: State, f: nat)
    requires f < |s.fibers|
    requires SettersInv(s.fibers, s.setters) && FibersInv(s.fibers, s.setters)
    ensures var fibers := s.fibers[f := s.fibers[f].(starved := true)];
            && SettersInv(fibers, s.setters) && FibersInv(fibers, s.setters)
            && forall id :: Outstanding(fibers, s.setters, id) == Outstanding(s.fibers, s.setters, id)
  {
    var fibers := s.fibers[f := s.fibers[f].(starved := true)];
    assert forall id :: Current(fibers, id) == Current(s.fibers, id);
  }

  lemma StarvedOthers(s: State, f: nat)
    requires f < |s.fibers|
    requires ResultsInv(s.fibers, s.setters, s.results) && BuiltInv(s.fibers, s.ring.q.built)
    requires WakesInv(s.fibers, s.wakes)
    ensures var fibers := s.fibers[f := s.fibers[f].(starved := true)];
            ResultsInv(fibers, s.setters, s.results) && BuiltInv(fibers, s.ring.q.built) && WakesInv(fibers, s.wakes)
  {
    var fibers := s.fibers[f := s.fibers[f].(starved := true)];
    assert forall id :: Current(fibers, id) == Current(s.fibers, id) && Placed(fibers, id) == Placed(s.fibers, id);
    assert forall g, c :: WokenIn(fibers, g, c) == WokenIn(s.fibers, g, c);
  }

  lemma StarveInv(s: State, taken: nat)
    requires Inv(s) && Enabled(s, Attempt(taken)) && !CanGetSqe(s.ring.q)
    ensures Inv(Apply(s, Attempt(taken)))
  {
    var t := Apply(s, Attempt(taken));
    StarvedFibers(s, s.control.fiber);
    StarvedOthers(s, s.control.fiber);
    SameCounts(s.fibers, s.setters, t.fibers, t.setters, Named(s, []));
  }

  // Placing an SQE.

  ghost function NextPc(pc: Pc): Pc {
    match pc
    case TryOp => TryTimeout
    case TryTimeout => Parked(true)
    case _ => Parked(false)
  }

  ghost function Advance(fibers: Fibers, f: nat): Fibers
    requires f < |fibers|
  {
    fibers[f := Fiber(fibers[f].call, NextPc(fibers[f].pc), if fibers[f].pc.TryOp? then false else fibers[f].starved)]
  }

  lemma AdvanceFibers(s: State, f: nat)
    requires f < |s.fibers| && Trying(s.fibers[f].pc)
    requires SettersInv(s.fibers, s.setters) && FibersInv(s.fibers, s.setters)
    ensures SettersInv(Advance(s.fibers, f), s.setters) && FibersInv(Advance(s.fibers, f), s.setters)
  {
    var fibers := Advance(s.fibers, f);
    assert forall id :: Current(fibers, id) == Current(s.fibers, id);
    assert NextSqe(s, f).data in s.setters ==> s.setters[NextSqe(s, f).data].res == NOT_SET;
  }

  lemma AdvanceCounts(s: State, f: nat, named: multiset<SetterId>)
    requires f < |s.fibers| && Trying(s.fibers[f].pc)
    requires SettersInv(s.fibers, s.setters) && CountInv(s.fibers, s.setters, named)
    ensures CountInv(Advance(s.fibers, f), s.setters, named + multiset{NextSqe(s, f).data})
  {
    var fibers, added := Advance(s.fibers, f), NextSqe(s, f).data;
    forall id
      ensures Outstanding(fibers, s.setters, id) == (Outstanding(s.fibers, s.setters, id) || id == added)
      ensures !Outstanding(s.fibers, s.setters, added)
    {
      assert id in s.setters <==> Current(s.fibers, id);
    }
  }

  lemma AdvanceResults(s: State, f: nat)
    requires f < |s.fibers| && Trying(s.fibers[f].pc)
    requires ResultsInv(s.fibers, s.setters, s.results)
    ensures ResultsInv(Advance(s.fibers, f), s.setters, s.results)
    ensures NextSqe(s, f).data !in s.results
  {
  }

  lemma AdvanceOthers(s: State, f: nat, built: seq<Sqe>)
    requires f < |s.fibers| && Trying(s.fibers[f].pc)
    requires BuiltInv(s.fibers, s.ring.q.built) && WakesInv(s.fibers, s.wakes)
    requires built == [] || (s.fibers[f].pc.TryOp? && built == s.ring.q.built + [NextSqe(s, f)])
    ensures BuiltInv(Advance(s.fibers, f), built) && WakesInv(Advance(s.fibers, f), s.wakes)
  {
    assert forall g, c :: WokenIn(Advance(s.fibers, f), g, c) == WokenIn(s.fibers, g, c);
  }

  lemma PlaceFresh(results: Results, before: multiset<SetterId>, id: SetterId)
    requires Fresh(results, before) && id !in results
    ensures Fresh(results, before + multiset{id})
  {
  }

  /** With a slot at hand a fiber advances unless the check fails. */
  lemma PlaceShape(s: State, taken: nat)
    requires Enabled(s, Attempt(taken)) && CanGetSqe(s.ring.q)
    ensures var f := s.control.fiber;
            var ring := Place(s.ring, s.fibers[f].starved, NextSqe(s, f), s.fibers[f].pc.TryOp?, taken);
            Apply(s, Attempt(taken)) ==
            if FailsCheck(s, Attempt(taken)) then Abandon(s.(ring := ring, control := Scheduler), f)
            else s.(ring := ring, fibers := Advance(s.fibers, f),
                    control := if s.fibers[f].pc.TryOp? then s.control else Scheduler)
  {
    assert s.ring.q.visible + (s.ring.q.built + [NextSqe(s, s.control.fiber)]) == Published(s);
  }

  lemma PlaceRing(s: State, taken: nat)
    requires Enabled(s, Attempt(taken)) && CanGetSqe(s.ring.q) && !FailsCheck(s, Attempt(taken))
    ensures var f, t := s.control.fiber, Apply(s, Attempt(taken));
            && t == s.(ring := t.ring, fibers := Advance(s.fibers, f), control := t.control)
            && (t.control == Scheduler || (s.fibers[f].pc.TryOp? && t.control == s.control))
            && (t.ring.q.built == [] || (s.fibers[f].pc.TryOp? && t.ring.q.built == s.ring.q.built + [NextSqe(s, f)]))
            && t.ring.q.cq == s.ring.q.cq && t.ring.q.entries == s.ring.q.entries
            && |t.ring.q.built| + |t.ring.q.visible| <= t.ring.q.entries
            && Uncompleted(t.ring.q) == Uncompleted(s.ring.q) + multiset{NextSqe(s, f).data}
            && Load(t.ring.q) == Load(s.ring.q) + multiset{NextSqe(s, f).data}
  {
    PlaceShape(s, taken);
    var f := s.control.fiber;
    PlaceLoad(s.ring, s.fibers[f].starved, NextSqe(s, f), s.fibers[f].pc.TryOp?, taken);
  }

  lemma LoadGrows(s: State, t: State, hand: seq<Cqe>, id: SetterId)
    requires Load(t.ring.q) == Load(s.ring.q) + multiset{id} && t.dropped == s.dropped
    ensures Named(t, hand) == Named(s, hand) + multiset{id}
  {
  }

  lemma PlaceInv(s: State, taken: nat)
    requires Inv(s) && Enabled(s, Attempt(taken)) && CanGetSqe(s.ring.q) && !FailsCheck(s, Attempt(taken))
    ensures Inv(Apply(s, Attempt(taken)))
  {
    PlaceRing(s, taken);
    var f, t := s.control.fiber, Apply(s, Attempt(taken));
    AdvanceFibers(s, f);
    AdvanceCounts(s, f, Named(s, []));
    AdvanceResults(s, f);
    AdvanceOthers(s, f, t.ring.q.built);
    PlaceFresh(s.results, Uncompleted(s.ring.q), NextSqe(s, f).data);
    LoadGrows(s, t, [], NextSqe(s, f).data);
  }

  // Reaping and dispatching.

  lemma ReapNames(s: State, t: State, k: nat)
    requires k <= |s.ring.q.cq| && t.ring == Reap(s.ring, k) && t.dropped == s.dropped
    ensures Named(t, s.ring.q.cq[..k]) == Named(s, []) && Uncompleted(t.ring.q) == Uncompleted(s.ring.q)
  {
    ReapLoad(s.ring, k);
    assert CqeIds([]) == [];
  }

  lemma AgreesSplit(results: Results, cqes: seq<Cqe>, k: nat)
    requires Agrees(results, cqes) && k <= |cqes|
    ensures Agrees(results, cqes[..k]) && Agrees(results, cqes[k..])
  {
    assert forall c :: c in cqes[..k] || c in cqes[k..] ==> c in cqes;
  }

  /** Reaped completions are in the poller's hand, still named and still agreeing. */
  lemma ReapToHand(s: State, t: State, k: nat)
    requires Inv(s) && k <= |s.ring.q.cq|
    requires t == s.(ring := Reap(s.ring, k), control := t.control, attempts := t.attempts)
    requires ControlInv(t.fibers, t.control)
    ensures InvWith(t, s.ring.q.cq[..k])
  {
    ReapNames(s, t, k);
    AgreesSplit(s.results, s.ring.q.cq, k);
  }

  /** A completion in hand names a live setter that has no result and an SQE that was built. */
  lemma HandIsLive(s: State, hand: seq<Cqe>, c: Cqe)
    requires SettersInv(s.fibers, s.setters) && CountInv(s.fibers, s.setters, Named(s, hand)) && c in hand
    ensures Live(s.setters, c.data) && Outstanding(s.fibers, s.setters, c.data)
    ensures s.setters[c.data].res == NOT_SET && s.setters[c.data].fiber == c.data.fiber
  {
    var i :| 0 <= i < |hand| && hand[i] == c;
    assert CqeIds(hand)[i] == c.data;
    assert c.data in multiset(CqeIds(hand));
    NamedOnce(s, hand, c.data);
    assert c.data in s.setters;
    var f := c.data.fiber;
    assert forall half :: Current(s.fibers, Id(s.fibers, f, half)) ==> Id(s.fibers, f, half) in s.setters;
  }

  lemma StoreSetters(fibers: Fibers, setters: Setters, c: Cqe)
    requires SettersInv(fibers, setters) && c.data in setters && Placed(fibers, c.data)
    ensures SettersInv(fibers, Store(setters, c))
  {
  }

  lemma StoreCounts(fibers: Fibers, setters: Setters, c: Cqe, named: multiset<SetterId>)
    requires CountInv(fibers, setters, named + multiset{c.data})
    requires c.data in setters && c.res != NOT_SET
    ensures CountInv(fibers, Store(setters, c), named)
  {
    forall id
      ensures named[id] == if Outstanding(fibers, Store(setters, c), id) then 1 else 0
    {
      assert (named + multiset{c.data})[id] == named[id] + if id == c.data then 1 else 0;
      assert (named + multiset{c.data})[c.data] <= 1;
    }
  }

  lemma StoreResults(fibers: Fibers, setters: Setters, c: Cqe, results: Results)
    requires ResultsInv(fibers, setters, results) && c.data in setters && c.data in results && results[c.data] == c.res
    ensures ResultsInv(fibers, Store(setters, c), results)
  {
  }

  /** `dispatch` wakes the fiber exactly if it is parked and this was its last result. */
  lemma WakesIffDone(fibers: Fibers, setters: Setters, c: Cqe)
    requires SettersInv(fibers, setters) && Live(setters, c.data) && Outstanding(fibers, setters, c.data)
    requires c.res != NOT_SET && !fibers[c.data.fiber].pc.Woken?
    ensures var f := c.data.fiber;
            Wakes(Store(setters, c), c.data) <==> fibers[f].pc.Parked? && AllSet(fibers, Store(setters, c), f)
  {
    var f, stored := c.data.fiber, Store(setters, c);
    StoreSetters(fibers, setters, c);
    assert stored[c.data].wake == WakeRule(fibers, f);
    if fibers[f].pc.TryTimeout? {
      var timeout := Id(fibers, f, LinkTimeout);
      assert Current(fibers, timeout) && !Placed(fibers, timeout);
      assert timeout in stored && stored[timeout].res == NOT_SET;
    }
  }

  /** Nobody else's results change. */
  lemma StoreFibers(fibers: Fibers, setters: Setters, c: Cqe)
    requires FibersInv(fibers, setters) && c.data in setters && c.data.fiber < |fibers|
    requires Outstanding(fibers, setters, c.data)
    ensures forall g: nat :: g < |fibers| && g != c.data.fiber ==>
              AllSet(fibers, Store(setters, c), g) == AllSet(fibers, setters, g)
    ensures !fibers[c.data.fiber].pc.Woken? && !fibers[c.data.fiber].pc.Failed?
  {
  }

  ghost function Awake(fibers: Fibers, f: nat): Fibers
    requires f < |fibers| && fibers[f].pc.Parked?
  {
    fibers[f := fibers[f].(pc := Woken(fibers[f].pc.timed))]
  }

  lemma AwakeSetters(fibers: Fibers, setters: Setters, f: nat)
    requires f < |fibers| && fibers[f].pc.Parked? && SettersInv(fibers, setters)
    ensures SettersInv(Awake(fibers, f), setters)
    ensures forall id :: Outstanding(Awake(fibers, f), setters, id) == Outstanding(fibers, setters, id)
  {
    assert forall id :: Current(Awake(fibers, f), id) == Current(fibers, id);
  }

  lemma AwakeOthers(s: State, f: nat)
    requires f < |s.fibers| && s.fibers[f].pc.Parked?
    requires ResultsInv(s.fibers, s.setters, s.results) && BuiltInv(s.fibers, s.ring.q.built)
    requires ControlInv(s.fibers, s.control)
    ensures ResultsInv(Awake(s.fibers, f), s.setters, s.results) && BuiltInv(Awake(s.fibers, f), s.ring.q.built)
    ensures ControlInv(Awake(s.fibers, f), s.control)
  {
    var fibers := Awake(s.fibers, f);
    assert forall id :: Current(fibers, id) == Current(s.fibers, id) && Placed(fibers, id) == Placed(s.fibers, id);
  }

  lemma AwakeWakes(fibers: Fibers, wakes: multiset<Wake>, f: nat)
    requires f < |fibers| && fibers[f].pc.Parked? && WakesInv(fibers, wakes)
    ensures WakesInv(Awake(fibers, f), wakes + multiset{Wake(f, fibers[f].call, true)})
  {
    var fibers' := Awake(fibers, f);
    assert forall g, c :: WokenIn(fibers', g, c) == (WokenIn(fibers, g, c) || (g == f && c == fibers[f].call));
    assert !WokenIn(fibers, f, fibers[f].call);
  }

  lemma AwakeFibers(fibers: Fibers, setters: Setters, stored: Setters, f: nat)
    requires f < |fibers| && fibers[f].pc.Parked? && FibersInv(fibers, setters)
    requires forall g: nat :: g < |fibers| && g != f ==> AllSet(fibers, stored, g) == AllSet(fibers, setters, g)
    requires AllSet(fibers, stored, f)
    ensures FibersInv(Awake(fibers, f), stored)
  {
    var fibers' := Awake(fibers, f);
    assert forall g: nat :: g < |fibers| ==> AllSet(fibers', stored, g) == AllSet(fibers, stored, g);
  }

  /** The two ways a dispatch can go, in terms of the fiber that owns the setter. */
  lemma DeliverShape(s: State, hand: seq<Cqe>, c: Cqe)
    requires SettersInv(s.fibers, s.setters) && CountInv(s.fibers, s.setters, Named(s, hand))
    requires c in hand && c.res != NOT_SET
    requires FibersInv(s.fibers, s.setters)
    ensures var f, stored := c.data.fiber, Store(s.setters, c);
            && f < |s.fibers| && c.data in s.setters && Outstanding(s.fibers, s.setters, c.data)
            && Deliver(s, c) ==
               if s.fibers[f].pc.Parked? && AllSet(s.fibers, stored, f) then
                 s.(setters := stored, fibers := Awake(s.fibers, f),
                    wakes := s.wakes + multiset{Wake(f, s.fibers[f].call, true)})
               else s.(setters := stored)
  {
    HandIsLive(s, hand, c);
    StoreFibers(s.fibers, s.setters, c);
    WakesIffDone(s.fibers, s.setters, c);
  }

  lemma HandHead(s: State, c: Cqe, rest: seq<Cqe>)
    ensures Named(s, [c] + rest) == Named(s, rest) + multiset{c.data}
  {
    CqeIdsConcat([c], rest);
    assert CqeIds([c]) == [c.data];
  }

  lemma StoredInv(s: State, c: Cqe, rest: seq<Cqe>)
    requires InvWith(s, [c] + rest)
    requires c.data in s.setters && Outstanding(s.fibers, s.setters, c.data)
    ensures var stored := Store(s.setters, c);
            SettersInv(s.fibers, stored) && CountInv(s.fibers, stored, Named(s, rest))
            && ResultsInv(s.fibers, stored, s.results)
  {
    assert c in [c] + rest;
    HandHead(s, c, rest);
    StoreSetters(s.fibers, s.setters, c);
    StoreCounts(s.fibers, s.setters, c, Named(s, rest));
    StoreResults(s.fibers, s.setters, c, s.results);
  }

  lemma AgreesTail(results: Results, c: Cqe, rest: seq<Cqe>)
    requires Agrees(results, [c] + rest)
    ensures Agrees(results, rest) && Agrees(results, [c])
  {
    assert forall d :: d in rest ==> d in [c] + rest;
    assert c in [c] + rest;
  }

  lemma StoredFibers(fibers: Fibers, setters: Setters, c: Cqe)
    requires FibersInv(fibers, setters) && c.data in setters && c.data.fiber < |fibers|
    requires Outstanding(fibers, setters, c.data)
    requires !(fibers[c.data.fiber].pc.Parked? && AllSet(fibers, Store(setters, c), c.data.fiber))
    ensures FibersInv(fibers, Store(setters, c))
  {
    StoreFibers(fibers, setters, c);
  }

  /** The step from a stored last result to a woken fiber. */
  lemma AwakeInv(s: State, setters: Setters, rest: seq<Cqe>, f: nat)
    requires f < |s.fibers| && s.fibers[f].pc.Parked? && AllSet(s.fibers, s.setters, f)
    requires FibersInv(s.fibers, setters)
    requires forall g: nat :: g < |s.fibers| && g != f ==>
               AllSet(s.fibers, s.setters, g) == AllSet(s.fibers, setters, g)
    requires SettersInv(s.fibers, s.setters) && CountInv(s.fibers, s.setters, Named(s, rest))
    requires ResultsInv(s.fibers, s.setters, s.results) && BuiltInv(s.fibers, s.ring.q.built)
    requires ControlInv(s.fibers, s.control) && WakesInv(s.fibers, s.wakes)
    ensures var fibers := Awake(s.fibers, f);
            && SettersInv(fibers, s.setters) && FibersInv(fibers, s.setters)
            && CountInv(fibers, s.setters, Named(s, rest))
            && ResultsInv(fibers, s.setters, s.results) && BuiltInv(fibers, s.ring.q.built)
            && ControlInv(fibers, s.control) && WakesInv(fibers, s.wakes + multiset{Wake(f, s.fibers[f].call, true)})
  {
    AwakeSetters(s.fibers, s.setters, f);
    SameCounts(s.fibers, s.setters, Awake(s.fibers, f), s.setters, Named(s, rest));
    AwakeOthers(s, f);
    AwakeWakes(s.fibers, s.wakes, f);
    AwakeFibers(s.fibers, setters, s.setters, f);
  }

  lemma DeliverInv(s: State, c: Cqe, rest: seq<Cqe>)
    requires InvWith(s, [c] + rest)
    ensures InvWith(Deliver(s, c), rest)
  {
    AgreesTail(s.results, c, rest);
    assert c in [c];
    DeliverShape(s, [c] + rest, c);
    var f, stored := c.data.fiber, Store(s.setters, c);
    StoredInv(s, c, rest);
    if s.fibers[f].pc.Parked? && AllSet(s.fibers, stored, f) {
      StoreFibers(s.fibers, s.setters, c);
      AwakeInv(s.(setters := stored), s.setters, rest, f);
    } else {
      StoredFibers(s.fibers, s.setters, c);
    }
  }

  lemma {:induction false} DeliverAllInv(s: State, batch: seq<Cqe>, rest: seq<Cqe>)
    requires InvWith(s, batch + rest)
    ensures InvWith(DeliverAll(s, batch), rest)
    decreases |batch|
  {
    if batch == [] {
      assert batch + rest == rest;
    } else {
      var n := |batch| - 1;
      assert batch + rest == batch[..n] + ([batch[n]] + rest);
      DeliverAllInv(s, batch[..n], [batch[n]] + rest);
      DeliverInv(DeliverAll(s, batch[..n]), batch[n], rest);
    }
  }

  lemma PollManyInv(s: State)
    requires Inv(s) && Enabled(s, PollMany)
    ensures Inv(Apply(s, PollMany))
  {
    var k := Clip(BATCH, |s.ring.q.cq|);
    var batch := s.ring.q.cq[..k];
    ReapToHand(s, s.(ring := Reap(s.ring, k)), k);
    assert batch + [] == batch;
    DeliverAllInv(s.(ring := Reap(s.ring, k)), batch, []);
  }

  /** Reaping one completion and dispatching it at once. */
  lemma ReapOneInv(s: State, control: Control, attempts: nat)
    requires Inv(s) && s.ring.q.cq != [] && ControlInv(s.fibers, control)
    ensures Inv(Deliver(s.(ring := Reap(s.ring, 1), control := control, attempts := attempts), s.ring.q.cq[0]))
  {
    var t := s.(ring := Reap(s.ring, 1), control := control, attempts := attempts);
    ReapToHand(s, t, 1);
    assert s.ring.q.cq[..1] == [s.ring.q.cq[0]] == [s.ring.q.cq[0]] + [];
    DeliverInv(t, s.ring.q.cq[0], []);
  }

  /** A dropped completion keeps naming its setter. */
  lemma DropInv(s: State)
    requires Inv(s) && s.ring.q.cq != []
    ensures Inv(s.(ring := Reap(s.ring, 1), control := Waiting, attempts := s.attempts + 1,
                   dropped := s.dropped + multiset{s.ring.q.cq[0].data}))
  {
    var t := s.(ring := Reap(s.ring, 1), control := Waiting, attempts := s.attempts + 1);
    ReapToHand(s, t, 1);
    assert s.ring.q.cq[..1] == [s.ring.q.cq[0]] == [s.ring.q.cq[0]] + [];
    HandHead(t, s.ring.q.cq[0], []);
    AgreesTail(t.results, s.ring.q.cq[0], []);
    assert Named(t.(dropped := s.dropped + multiset{s.ring.q.cq[0].data}), []) == Named(t, [s.ring.q.cq[0]]);
  }

  /** Polling an empty queue counts an attempt and may start a wait. */
  lemma EmptyPollInv(s: State, control: Control, attempts: nat)
    requires Inv(s) && ControlInv(s.fibers, control)
    ensures Inv(s.(control := control, attempts := attempts))
  {
    var t := s.(control := control, attempts := attempts);
    assert Named(t, []) == Named(s, []);
  }

  lemma LastAttemptInv(s: State)
    requires Inv(s) && Enabled(s, Poll) && s.attempts + 1 >= s.maxAttempts
    ensures Inv(Apply(s, Poll))
  {
    if s.ring.q.cq == [] {
      assert Apply(s, Poll) == s.(control := Waiting, attempts := s.attempts + 1);
      EmptyPollInv(s, Waiting, s.attempts + 1);
    } else {
      assert Apply(s, Poll) == s.(ring := Reap(s.ring, 1), control := Waiting, attempts := s.attempts + 1,
                                  dropped := s.dropped + multiset{s.ring.q.cq[0].data});
      DropInv(s);
    }
  }

  lemma EarlyAttemptInv(s: State)
    requires Inv(s) && Enabled(s, Poll) && s.attempts + 1 < s.maxAttempts
    ensures Inv(Apply(s, Poll))
  {
    if s.ring.q.cq == [] {
      assert Apply(s, Poll) == s.(control := s.control, attempts := s.attempts + 1);
      EmptyPollInv(s, s.control, s.attempts + 1);
    } else {
      var t := s.(ring := Reap(s.ring, 1), control := s.control, attempts := 0);
      assert Apply(s, Poll) == Deliver(t, s.ring.q.cq[0]);
      ReapOneInv(s, s.control, 0);
    }
  }

  lemma PollInv(s: State)
    requires Inv(s) && Enabled(s, Poll)
    ensures Inv(Apply(s, Poll))
  {
    if s.attempts + 1 >= s.maxAttempts {
      LastAttemptInv(s);
    } else {
      EarlyAttemptInv(s);
    }
  }

  // Finishing a call.

  lemma FinishSetters(s: State, f: nat)
    requires f < |s.fibers| && s.fibers[f].pc.Woken?
    requires SettersInv(s.fibers, s.setters)
    ensures var t := FinishCall(s, f); SettersInv(t.fibers, t.setters)
  {
    var t := FinishCall(s, f);
    forall id
      ensures id in t.setters <==> Current(t.fibers, id)
    {
      assert id in s.setters <==> Current(s.fibers, id);
    }
  }

  lemma FinishFibers(s: State, f: nat)
    requires f < |s.fibers| && s.fibers[f].pc.Woken?
    requires FibersInv(s.fibers, s.setters)
    ensures var t := FinishCall(s, f); FibersInv(t.fibers, t.setters)
  {
  }

  /** Nothing in the system names a setter of a call that is about to return. */
  lemma FinishCounts(s: State, f: nat)
    requires f < |s.fibers| && s.fibers[f].pc.Woken?
    requires FibersInv(s.fibers, s.setters)
    ensures var t := FinishCall(s, f);
            forall id :: Outstanding(t.fibers, t.setters, id) == Outstanding(s.fibers, s.setters, id)
  {
    assert AllSet(s.fibers, s.setters, f);
  }

  lemma FinishResults(s: State, f: nat)
    requires f < |s.fibers| && s.fibers[f].pc.Woken?
    requires ResultsInv(s.fibers, s.setters, s.results)
    ensures var t := FinishCall(s, f); ResultsInv(t.fibers, t.setters, t.results)
  {
  }

  lemma FinishLog(s: State, f: nat)
    requires f < |s.fibers| && s.fibers[f].pc.Woken? && FibersInv(s.fibers, s.setters)
    requires SettersInv(s.fibers, s.setters) && ResultsInv(s.fibers, s.setters, s.results) && LogInv(s.results, s.log)
    ensures var t := FinishCall(s, f); LogInv(t.results, t.log)
  {
    assert AllSet(s.fibers, s.setters, f);
  }

  lemma FinishOthers(s: State, f: nat)
    requires f < |s.fibers| && s.fibers[f].pc.Woken?
    requires BuiltInv(s.fibers, s.ring.q.built) && WakesInv(s.fibers, s.wakes)
    ensures var t := FinishCall(s, f); BuiltInv(t.fibers, t.ring.q.built) && WakesInv(t.fibers, t.wakes)
  {
    var t := FinishCall(s, f);
    assert forall g, c :: WokenIn(t.fibers, g, c) == WokenIn(s.fibers, g, c);
  }

  lemma FinishInv(s: State, f: nat)
    requires Inv(s) && Enabled(s, Finish(f))
    ensures Inv(FinishCall(s, f))
  {
    var t := FinishCall(s, f);
    FinishSetters(s, f);
    FinishFibers(s, f);
    FinishCounts(s, f);
    SameCounts(s.fibers, s.setters, t.fibers, t.setters, Named(s, []));
    FinishResults(s, f);
    FinishLog(s, f);
    FinishOthers(s, f);
  }

  /** Every step but a failing submit check keeps the invariant. */
  lemma StepInv(s: State, step: Step)
    requires Inv(s) && Enabled(s, step) && !FailsCheck(s, step)
    ensures Inv(Apply(s, step))
  {
    match step
    case Begin(f, timed) => BeginInv(s, f, timed);
    case Resume(f) =>
    case Attempt(taken) => if CanGetSqe(s.ring.q) { PlaceInv(s, taken); } else { StarveInv(s, taken); }
    case KernelTake(k) => TakeInv(s, k);
    case KernelComplete(i, res) => CompleteInv(s, i, res);
    case Poll => PollInv(s);
    case WaitOver => ReapOneInv(s, Scheduler, 0);
    case PollMany => PollManyInv(s);
    case Finish(f) => FinishInv(s, f);
  }

  /** No submit check fails in the run. */
  ghost predicate Sound(states: seq<State>, steps: seq<Step>)
    requires |states| == |steps| + 1
  {
    forall i :: 0 <= i < |steps| ==> !FailsCheck(states[i], steps[i])
  }

  lemma {:induction false} RunInv(states: seq<State>, steps: seq<Step>, n: nat)
    requires IsRun(states, steps) && Inv(states[0]) && Sound(states, steps) && n <= |steps|
    ensures Inv(states[n])
  {
    if n > 0 {
      RunInv(states, steps, n - 1);
      StepInv(states[n - 1], steps[n - 1]);
    }
  }
}
