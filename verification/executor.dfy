/** `Executor::dispatch_loop` (netring/netring/uf.h) with the handler life cycle of
    netring/netring/uf.cc. A cookie is the address of a variant; the kernel returns the cookies of
    outstanding operations in any order. */
module Executors {
  import opened ObjectPools

  type Cookie = nat
  type Stack = nat

  /** `std::variant<std::monostate, Request, Handler>`; a finished handler's stack was moved out. */
  datatype Cell = Monostate | Request | Handler(stack: Stack, finished: bool)

  /** What a handler does from one switch to the next: submits so many operations under its own
      cookie, then yields or finishes. */
  datatype Turn = Turn(ops: nat, finishes: bool)

  /** The panic at the end of the loop, or a switch to a handler that has already finished. */
  datatype Fault = NoFault | UnreachableBranch | DeadHandler

  datatype State = State(
    cells: map<Cookie, Cell>, cookies: Pool, stacks: Pool, inflight: multiset<Cookie>, fault: Fault)
  datatype Event = Event(cookie: Cookie, turn: Turn)

  /** The cookie of the variant allocated before the loop; the pool's factory makes the others. */
  function PoolCookie(t: nat): Cookie { t + 1 }
  const RECV: Cookie := 0

  function Start(): State {
    State(map[RECV := Request], Pool([], 0), Pool([], 0), multiset{RECV}, NoFault)
  }

  function Times(c: Cookie, n: nat): multiset<Cookie> {
    multiset{}[c := n]
  }

  /** `switch_here` and what follows it. */
  function RunHandler(s: State, c: Cookie, stack: Stack, turn: Turn): State {
    var t := s.(inflight := s.inflight + Times(c, turn.ops));
    if turn.finishes && c > 0 then
      t.(cells := t.cells[c := Handler(stack, true)], stacks := Returned(t.stacks, stack),
         cookies := Returned(t.cookies, c - 1))
    else t
  }

  /** A datagram arrived: a handler takes the request over and the receive is submitted again. */
  function StartHandler(s: State, c: Cookie, turn: Turn): State {
    var (t, cookies) := Taken(s.cookies);
    var (stack, stacks) := Taken(s.stacks);
    var made := PoolCookie(t);
    RunHandler(s.(cells := s.cells[made := Handler(stack, false)][c := Request], cookies := cookies, stacks := stacks,
                  inflight := s.inflight + multiset{c}),
               made, stack, turn)
  }

  /** One turn of the loop, for the completion that `poll_cookie` returned. */
  function Dispatch(s: State, e: Event): State {
    var t := s.(inflight := s.inflight - multiset{e.cookie});
    if e.cookie !in s.cells then t.(fault := UnreachableBranch)
    else
      match s.cells[e.cookie]
      case Request => StartHandler(t, e.cookie, e.turn)
      case Handler(stack, false) => RunHandler(t, e.cookie, stack, e.turn)
      case Handler(_, true) => t.(fault := DeadHandler)
      case Monostate => t.(fault := UnreachableBranch)
  }

  /** One operation per yield and none left behind, as the handler in src/srv.cc does. */
  predicate Disciplined(turn: Turn) {
    turn.ops == if turn.finishes then 0 else 1
  }

  ghost predicate IsRun(states: seq<State>, events: seq<Event>) {
    && |states| == |events| + 1
    && forall i :: 0 <= i < |events| ==>
         events[i].cookie in states[i].inflight && states[i + 1] == Dispatch(states[i], events[i])
  }

  predicate Live(s: State, c: Cookie) {
    c in s.cells && s.cells[c].Handler? && !s.cells[c].finished
  }

  /** Numbers, in the pool's counting, of the cookies that hold live handlers. */
  ghost function LiveCookies(s: State): set<nat> {
    set n | 0 <= n < s.cookies.made && Live(s, PoolCookie(n))
  }

  ghost function HeldStacks(s: State): set<Stack> {
    set c | c in s.cells && Live(s, c) :: s.cells[c].stack
  }

  ghost predicate StacksApart(s: State) {
    forall c, d :: Live(s, c) && Live(s, d) && c != d ==> s.cells[c].stack != s.cells[d].stack
  }

  /** The loop-head invariant. */
  ghost predicate Inv(s: State) {
    && RECV in s.cells && s.cells[RECV] == Request && s.fault == NoFault
    && (forall c :: c in s.cells && c != RECV ==> s.cells[c].Handler? && c - 1 < s.cookies.made)
    && (forall c :: s.inflight[c] == if c == RECV || Live(s, c) then 1 else 0)
    && Partitions(s.cookies, LiveCookies(s)) && Partitions(s.stacks, HeldStacks(s)) && StacksApart(s)
  }

  lemma StartInv()
    ensures Inv(Start())
  {
    var s := Start();
    assert LiveCookies(s) == {} && HeldStacks(s) == {};
    EmptyPartitions();
  }

  /** Taking a cookie and a stack for a new handler. */
  ghost function Opened(s: State): State {
    var (t, cookies) := Taken(s.cookies);
    var (stack, stacks) := Taken(s.stacks);
    s.(cells := s.cells[PoolCookie(t) := Handler(stack, false)], cookies := cookies, stacks := stacks)
  }

  /** Everything but the operations in flight. */
  ghost predicate Shape(s: State) {
    && RECV in s.cells && s.cells[RECV] == Request && s.fault == NoFault
    && (forall c :: c in s.cells && c != RECV ==> s.cells[c].Handler? && c - 1 < s.cookies.made)
    && Partitions(s.cookies, LiveCookies(s)) && Partitions(s.stacks, HeldStacks(s)) && StacksApart(s)
  }

  /** The cells have changed at c only: from nothing live to a live handler. */
  ghost predicate Gains(s: State, t: State, c: Cookie) {
    && !Live(s, c) && Live(t, c) && c in t.cells
    && forall d :: d != c ==> Live(t, d) == Live(s, d) && (Live(s, d) ==> t.cells[d] == s.cells[d])
  }

  lemma GainsStack(s: State, t: State, c: Cookie)
    requires Gains(s, t, c)
    ensures HeldStacks(t) == HeldStacks(s) + {t.cells[c].stack}
  {
    forall x | x in HeldStacks(s)
      ensures x in HeldStacks(t)
    {
      var d :| d in s.cells && Live(s, d) && s.cells[d].stack == x;
      assert Live(t, d) && t.cells[d].stack == x;
    }
    forall x | x in HeldStacks(t)
      ensures x in HeldStacks(s) + {t.cells[c].stack}
    {
      var d :| d in t.cells && Live(t, d) && t.cells[d].stack == x;
      assert d != c ==> Live(s, d) && s.cells[d].stack == x;
    }
  }

  lemma GainsApart(s: State, t: State, c: Cookie)
    requires Gains(s, t, c) && StacksApart(s) && t.cells[c].stack !in HeldStacks(s)
    ensures StacksApart(t)
  {
    assert forall d :: Live(s, d) ==> s.cells[d].stack in HeldStacks(s);
  }

  /** A cookie that is not among the live ones is not live. */
  lemma NotAmongLive(s: State, n: nat)
    requires Shape(s) && n !in LiveCookies(s)
    ensures !Live(s, PoolCookie(n))
  {
    assert PoolCookie(n) in s.cells ==> PoolCookie(n) - 1 == n < s.cookies.made;
  }

  lemma OpenCookies(s: State)
    requires Shape(s)
    ensures var t, n := Opened(s), Taken(s.cookies).0;
            && Gains(s, t, PoolCookie(n)) && n < t.cookies.made && s.cookies.made <= t.cookies.made
            && Partitions(t.cookies, LiveCookies(t))
  {
    var t, n := Opened(s), Taken(s.cookies).0;
    GetPartitions(s.cookies, LiveCookies(s));
    NotAmongLive(s, n);
    LiveCookiesGain(s, t, n);
  }

  lemma LiveCookiesGain(s: State, t: State, n: nat)
    requires Shape(s) && Gains(s, t, PoolCookie(n)) && n < t.cookies.made && s.cookies.made <= t.cookies.made
    ensures LiveCookies(t) == LiveCookies(s) + {n}
  {
    forall m | m in LiveCookies(t)
      ensures m in LiveCookies(s) + {n}
    {
      if m != n {
        assert PoolCookie(m) != PoolCookie(n) && Live(s, PoolCookie(m));
        assert PoolCookie(m) in s.cells && PoolCookie(m) - 1 < s.cookies.made;
      }
    }
  }

  lemma OpenShape(s: State)
    requires Shape(s)
    ensures var t, c := Opened(s), PoolCookie(Taken(s.cookies).0);
            Shape(t) && Gains(s, t, c) && c != RECV && t.cells[c].stack == Taken(s.stacks).0
  {
    var t, c := Opened(s), PoolCookie(Taken(s.cookies).0);
    OpenCookies(s);
    GetPartitions(s.stacks, HeldStacks(s));
    GainsStack(s, t, c);
    GainsApart(s, t, c);
  }

  ghost function Closed(s: State, c: Cookie, stack: Stack): State
    requires c > 0
  {
    s.(cells := s.cells[c := Handler(stack, true)],
       stacks := Returned(s.stacks, stack), cookies := Returned(s.cookies, c - 1))
  }

  lemma CloseCookies(s: State, c: Cookie)
    requires Shape(s) && Live(s, c)
    ensures c != RECV
    ensures var t := Closed(s, c, s.cells[c].stack);
            Gains(t, s, c) && Partitions(t.cookies, LiveCookies(t))
  {
    var t := Closed(s, c, s.cells[c].stack);
    assert PoolCookie(c - 1) == c;
    assert c - 1 in LiveCookies(s);
    PutPartitions(s.cookies, LiveCookies(s), c - 1);
    assert LiveCookies(t) == LiveCookies(s) - {c - 1};
  }

  lemma CloseStacks(s: State, t: State, c: Cookie)
    requires Gains(t, s, c) && StacksApart(s)
    ensures HeldStacks(t) == HeldStacks(s) - {s.cells[c].stack} && s.cells[c].stack in HeldStacks(s) && StacksApart(t)
  {
    GainsStack(t, s, c);
    forall x | x in HeldStacks(t)
      ensures x != s.cells[c].stack
    {
      var d :| d in t.cells && Live(t, d) && t.cells[d].stack == x;
      assert Live(s, d) && d != c;
    }
  }

  lemma CloseShape(s: State, c: Cookie)
    requires Shape(s) && Live(s, c)
    ensures c != RECV && Shape(Closed(s, c, s.cells[c].stack)) && Gains(Closed(s, c, s.cells[c].stack), s, c)
  {
    var t := Closed(s, c, s.cells[c].stack);
    CloseCookies(s, c);
    CloseStacks(s, t, c);
    PutPartitions(s.stacks, HeldStacks(s), s.cells[c].stack);
  }

  /** Which cookies should have an operation in flight while the handler at c has none. */
  ghost predicate InflightBut(s: State, c: Cookie) {
    forall d :: s.inflight[d] == if d != c && (d == RECV || Live(s, d)) then 1 else 0
  }

  lemma SameShape(s: State, inflight: multiset<Cookie>)
    requires Shape(s)
    ensures Shape(s.(inflight := inflight))
    ensures forall c :: Live(s.(inflight := inflight), c) == Live(s, c)
  {
    var t := s.(inflight := inflight);
    assert LiveCookies(t) == LiveCookies(s) && HeldStacks(t) == HeldStacks(s);
    assert forall c :: Live(t, c) == Live(s, c);
  }

  lemma ShapeAndFlight(s: State)
    ensures Inv(s) <==> Shape(s) && forall c :: s.inflight[c] == if c == RECV || Live(s, c) then 1 else 0
  {
  }

  /** A handler's turn restores the invariant exactly if it is disciplined. */
  lemma RunHandlerInv(s: State, c: Cookie, turn: Turn)
    requires Shape(s) && Live(s, c) && InflightBut(s, c)
    ensures Inv(RunHandler(s, c, s.cells[c].stack, turn)) <==> Disciplined(turn)
  {
    var t := RunHandler(s, c, s.cells[c].stack, turn);
    CloseShape(s, c);
    assert Times(c, turn.ops)[c] == turn.ops;
    if turn.finishes {
      SameShape(Closed(s, c, s.cells[c].stack), t.inflight);
      assert t == Closed(s, c, s.cells[c].stack).(inflight := t.inflight);
    } else {
      SameShape(s, t.inflight);
    }
    ShapeAndFlight(t);
    assert Live(t, c) == !turn.finishes && t.inflight[c] == turn.ops;
    assert forall d :: d != c ==> t.inflight[d] == s.inflight[d] && Live(t, d) == Live(s, d);
  }

  lemma PolledIsKnown(s: State, c: Cookie)
    requires Inv(s) && c in s.inflight
    ensures c in s.cells && (s.cells[c] == Request <==> c == RECV) && (c != RECV ==> Live(s, c))
  {
  }

  /** One turn of the loop keeps the invariant if and only if the handler it runs is disciplined. */
  lemma DispatchInv(s: State, e: Event)
    requires Inv(s) && e.cookie in s.inflight
    ensures Inv(Dispatch(s, e)) <==> Disciplined(e.turn)
  {
    PolledIsKnown(s, e.cookie);
    var t := s.(inflight := s.inflight - multiset{e.cookie});
    SameShape(s, t.inflight);
    if e.cookie == RECV {
      OpenShape(t);
      var c, u := PoolCookie(Taken(t.cookies).0), Opened(t).(inflight := s.inflight);
      assert t.inflight + multiset{RECV} == s.inflight;
      SameShape(Opened(t), s.inflight);
      assert u.cells[RECV := Request] == u.cells;
      assert Dispatch(s, e) == RunHandler(u, c, u.cells[c].stack, e.turn);
      RunHandlerInv(u, c, e.turn);
    } else {
      RunHandlerInv(t, e.cookie, e.turn);
    }
  }

  // What a turn does to handlers, cookies and stacks.

  /** The same handlers are live, each as it was, but for those in `but`. */
  ghost predicate SameLive(s: State, t: State, but: set<Cookie>) {
    forall d :: d !in but ==> (Live(t, d) <==> Live(s, d)) && (Live(s, d) ==> t.cells[d] == s.cells[d])
  }

  /** x comes out of the pool: it was free, or nothing was and it is new. */
  ghost predicate ComesFrom(p: Pool, x: nat, made: nat) {
    if p.objects == [] then x == p.made && made == p.made + 1 else x in p.objects && made == p.made
  }

  /** A datagram whose handler yields: exactly one cookie becomes live that was not, with a stack that no
      live handler held; both come from their pools and are not free any more; the handler has the
      operations in flight that it submitted, and the receive is outstanding again under its old cookie. */
  lemma DatagramStartsHandler(s: State, turn: Turn) returns (n: nat)
    requires Inv(s) && !turn.finishes
    ensures var t, c := Dispatch(s, Event(RECV, turn)), PoolCookie(n);
            && !Live(s, c) && Live(t, c) && t.cells[c].stack !in HeldStacks(s) && SameLive(s, t, {c})
            && ComesFrom(s.cookies, n, t.cookies.made) && n !in t.cookies.objects
            && ComesFrom(s.stacks, t.cells[c].stack, t.stacks.made) && t.cells[c].stack !in t.stacks.objects
            && t.cells[RECV] == Request && c != RECV
            && t.inflight == s.inflight + multiset{}[c := turn.ops]
  {
    n := Taken(s.cookies).0;
    OpenShape(s);
    OutOfPool(s.cookies, LiveCookies(s));
    OutOfPool(s.stacks, HeldStacks(s));
    var t := Dispatch(s, Event(RECV, turn));
    assert s.inflight - multiset{RECV} + multiset{RECV} == s.inflight;
    SameCells(Opened(s), t);
  }

  /** A datagram whose handler finishes at once: the same handlers are live as before, and the cookie and
      the stack that it used are free. */
  lemma OneShotLeavesNothing(s: State, turn: Turn) returns (n: nat, stack: Stack)
    requires Inv(s) && turn.finishes
    ensures var t := Dispatch(s, Event(RECV, turn));
            && SameLive(s, t, {}) && !Live(s, PoolCookie(n)) && stack !in HeldStacks(s)
            && PoolCookie(n) in t.cells && t.cells[PoolCookie(n)] == Handler(stack, true)
            && ComesFrom(s.cookies, n, t.cookies.made) && n in t.cookies.objects
            && ComesFrom(s.stacks, stack, t.stacks.made) && stack in t.stacks.objects
            && t.cells[RECV] == Request && t.inflight == s.inflight + multiset{}[PoolCookie(n) := turn.ops]
  {
    n, stack := Taken(s.cookies).0, Taken(s.stacks).0;
    OpenThenClose(s, n, stack);
    var t := Dispatch(s, Event(RECV, turn));
    assert s.inflight - multiset{RECV} + multiset{RECV} == s.inflight;
    SameCells(Closed(Opened(s), PoolCookie(n), stack), t);
  }

  lemma SameCells(s: State, t: State)
    requires t.cells == s.cells
    ensures forall c :: Live(t, c) == Live(s, c)
  {
  }

  lemma OpenThenClose(s: State, n: nat, stack: Stack)
    requires Shape(s) && n == Taken(s.cookies).0 && stack == Taken(s.stacks).0
    ensures var t := Closed(Opened(s), PoolCookie(n), stack);
            && SameLive(s, t, {}) && !Live(s, PoolCookie(n)) && stack !in HeldStacks(s)
            && t.cells == s.cells[PoolCookie(n) := Handler(stack, true)]
            && ComesFrom(s.cookies, n, t.cookies.made) && n in t.cookies.objects
            && ComesFrom(s.stacks, stack, t.stacks.made) && stack in t.stacks.objects
  {
    OpenShape(s);
    OutOfPool(s.cookies, LiveCookies(s));
    OutOfPool(s.stacks, HeldStacks(s));
    CloseShape(Opened(s), PoolCookie(n));
  }

  lemma OutOfPool(p: Pool, out: set<nat>)
    requires Partitions(p, out)
    ensures var (x, q) := Taken(p);
            ComesFrom(p, x, q.made) && x !in out && x !in q.objects && x in Returned(q, x).objects
  {
    GetPartitions(p, out);
    var (x, q) := Taken(p);
    assert Returned(q, x).objects[|q.objects|] == x;
  }

  /** A completion for a live handler that yields again changes no cell and no pool. */
  lemma HandlerGoesOn(s: State, c: Cookie, turn: Turn)
    requires Inv(s) && Live(s, c) && !turn.finishes
    ensures var t := Dispatch(s, Event(c, turn));
            && t.cells == s.cells && t.cookies == s.cookies && t.stacks == s.stacks
            && t.inflight == s.inflight[c := turn.ops]
  {
    assert s.inflight[c] == 1;
    assert (s.inflight - multiset{c} + Times(c, turn.ops))[c] == turn.ops;
    assert s.inflight - multiset{c} + Times(c, turn.ops) == s.inflight[c := turn.ops];
  }

  /** A completion for a live handler that finishes ends exactly this one, and its cookie and stack are
      free. */
  lemma HandlerEnds(s: State, c: Cookie, turn: Turn)
    requires Inv(s) && Live(s, c) && turn.finishes
    ensures var t := Dispatch(s, Event(c, turn));
            && !Live(t, c) && SameLive(s, t, {c})
            && c > 0 && t.cookies.objects == s.cookies.objects + [c - 1] && t.cookies.made == s.cookies.made
            && t.stacks.objects == s.stacks.objects + [s.cells[c].stack] && t.stacks.made == s.stacks.made
            && t.cells[RECV] == Request && t.inflight == s.inflight[c := turn.ops]
  {
    CloseShape(s, c);
    var t, stack := Dispatch(s, Event(c, turn)), s.cells[c].stack;
    assert s.inflight - multiset{c} + Times(c, turn.ops) == s.inflight[c := turn.ops];
    assert t.cells == Closed(s, c, stack).cells;
    assert forall d :: Live(t, d) == Live(Closed(s, c, stack), d);
  }

  /** The switch goes to a request's new handler or to a live one. */
  predicate Answers(s: State, e: Event) {
    e.cookie in s.cells && (s.cells[e.cookie] == Request || Live(s, e.cookie))
  }

  lemma StepFault(s: State, e: Event)
    ensures Answers(s, e) ==> Dispatch(s, e).fault == s.fault
    ensures !Answers(s, e) ==>
              Dispatch(s, e).fault ==
              if e.cookie in s.cells && s.cells[e.cookie].Handler? then DeadHandler else UnreachableBranch
  {
  }

  /** A run is without fault exactly as long as each completion finds a request or a live handler, whatever
      the handlers do. */
  lemma {:induction false} FaultExactly(states: seq<State>, events: seq<Event>, n: nat)
    requires IsRun(states, events) && states[0] == Start() && n <= |events|
    ensures states[n].fault == NoFault <==> forall i :: 0 <= i < n ==> Answers(states[i], events[i])
  {
    if n > 0 {
      FaultExactly(states, events, n - 1);
      StepFault(states[n - 1], events[n - 1]);
    }
  }

  ghost function Datagrams(events: seq<Event>): nat {
    if events == [] then 0
    else Datagrams(events[..|events| - 1]) + if events[|events| - 1].cookie == RECV then 1 else 0
  }

  ghost function Finished(events: seq<Event>): nat {
    if events == [] then 0
    else Finished(events[..|events| - 1]) + if events[|events| - 1].turn.finishes then 1 else 0
  }

  lemma LiveCount(s: State, e: Event)
    requires Inv(s) && e.cookie in s.inflight && Disciplined(e.turn)
    ensures |LiveCookies(Dispatch(s, e))| + (if e.turn.finishes then 1 else 0) ==
            |LiveCookies(s)| + if e.cookie == RECV then 1 else 0
  {
    PolledIsKnown(s, e.cookie);
    DispatchInv(s, e);
    var t := Dispatch(s, e);
    if e.cookie == RECV && !e.turn.finishes {
      var n := DatagramStartsHandler(s, e.turn);
      assert Gains(s, t, PoolCookie(n));
      LiveCookiesGain(s, t, n);
      NotLiveNotAmong(s, n);
    } else if e.cookie == RECV {
      var n, stack := OneShotLeavesNothing(s, e.turn);
      SameLiveCookies(s, t);
    } else if e.turn.finishes {
      HandlerEnds(s, e.cookie, e.turn);
      assert PoolCookie(e.cookie - 1) == e.cookie && Gains(t, s, e.cookie);
      LiveCookiesGain(t, s, e.cookie - 1);
      NotLiveNotAmong(t, e.cookie - 1);
    } else {
      HandlerGoesOn(s, e.cookie, e.turn);
      SameLiveCookies(s, t);
    }
  }

  lemma NotLiveNotAmong(s: State, n: nat)
    requires !Live(s, PoolCookie(n))
    ensures n !in LiveCookies(s)
  {
  }

  lemma SameLiveCookies(s: State, t: State)
    requires Inv(s) && Inv(t) && SameLive(s, t, {})
    ensures LiveCookies(t) == LiveCookies(s)
  {
    forall n: nat
      ensures n in LiveCookies(t) <==> n in LiveCookies(s)
    {
      assert Live(s, PoolCookie(n)) ==> PoolCookie(n) - 1 < s.cookies.made;
      assert Live(t, PoolCookie(n)) ==> PoolCookie(n) - 1 < t.cookies.made;
    }
  }

  /** Every datagram starts a handler: those started are live or have finished. */
  lemma {:induction false} HandlersAddUp(states: seq<State>, events: seq<Event>, n: nat)
    requires IsRun(states, events) && states[0] == Start() && n <= |events|
    requires forall i :: 0 <= i < |events| ==> Disciplined(events[i].turn)
    ensures |LiveCookies(states[n])| + Finished(events[..n]) == Datagrams(events[..n])
  {
    if n == 0 {
      assert LiveCookies(states[0]) == {};
    } else {
      HandlersAddUp(states, events, n - 1);
      RunInv(states, events, n - 1);
      LiveCount(states[n - 1], events[n - 1]);
      CountNext(events, n - 1);
    }
  }

  lemma CountNext(events: seq<Event>, n: nat)
    requires n < |events|
    ensures Datagrams(events[..n + 1]) == Datagrams(events[..n]) + if events[n].cookie == RECV then 1 else 0
    ensures Finished(events[..n + 1]) == Finished(events[..n]) + if events[n].turn.finishes then 1 else 0
  {
    assert events[..n + 1][..n] == events[..n];
  }

  lemma {:induction false} RunInv(states: seq<State>, events: seq<Event>, n: nat)
    requires IsRun(states, events) && states[0] == Start() && n <= |events|
    requires forall i :: 0 <= i < |events| ==> Disciplined(events[i].turn)
    ensures Inv(states[n])
  {
    if n == 0 {
      StartInv();
    } else {
      RunInv(states, events, n - 1);
      DispatchInv(states[n - 1], events[n - 1]);
    }
  }

  /** At every loop head one receive is outstanding, under a cookie that holds a request; every live
      handler has one operation in flight, under its own cookie; nothing else is in flight; and neither the
      branch marked unreachable was taken nor a finished handler resumed. */
  lemma LoopHead(states: seq<State>, events: seq<Event>, n: nat)
    requires IsRun(states, events) && states[0] == Start() && n <= |events|
    requires forall i :: 0 <= i < |events| ==> Disciplined(events[i].turn)
    ensures var s := states[n];
            && s.fault == NoFault
            && RECV in s.cells && s.cells[RECV] == Request && s.inflight[RECV] == 1
            && (forall c :: Live(s, c) ==> s.inflight[c] == 1)
            && (forall c :: c in s.inflight ==> c in s.cells && (s.cells[c] == Request || Live(s, c)))
  {
    RunInv(states, events, n);
  }

  /** Free cookies, the receive cookie and the cookies of live handlers are disjoint; no two live
      handlers share a stack, and no live handler's stack is free; and free plus held stacks are all
      the factory ever made, as are free plus live cookies. */
  lemma PoolsPartitioned(states: seq<State>, events: seq<Event>, n: nat)
    requires IsRun(states, events) && states[0] == Start() && n <= |events|
    requires forall i :: 0 <= i < |events| ==> Disciplined(events[i].turn)
    ensures var s := states[n];
            && (forall t :: t in s.cookies.objects ==> PoolCookie(t) != RECV && !Live(s, PoolCookie(t)))
            && Distinct(s.cookies.objects) && Distinct(s.stacks.objects) && StacksApart(s)
            && (forall c :: Live(s, c) ==> c != RECV && s.cells[c].stack !in s.stacks.objects)
            && |s.stacks.objects| + |HeldStacks(s)| == s.stacks.made
            && |s.cookies.objects| + |LiveCookies(s)| == s.cookies.made
  {
    RunInv(states, events, n);
    var s := states[n];
    forall t | t in s.cookies.objects
      ensures !Live(s, PoolCookie(t))
    {
      assert t !in LiveCookies(s);
    }
    forall c | Live(s, c)
      ensures s.cells[c].stack !in s.stacks.objects
    {
      assert s.cells[c].stack in HeldStacks(s);
    }
  }

  /** A handler that submits twice before it yields can be gone when its second completion arrives. */
  lemma TwoOperationsBreak()
    ensures var s1 := Dispatch(Start(), Event(RECV, Turn(2, false)));
            var s2 := Dispatch(s1, Event(PoolCookie(0), Turn(0, true)));
            && PoolCookie(0) in s1.inflight && PoolCookie(0) in s2.inflight
            && Dispatch(s2, Event(PoolCookie(0), Turn(0, true))).fault == DeadHandler
  {
    var s1 := Dispatch(Start(), Event(RECV, Turn(2, false)));
    assert s1.cells[PoolCookie(0)] == Handler(0, false);
    assert s1.inflight[PoolCookie(0)] == 2;
    var s2 := Dispatch(s1, Event(PoolCookie(0), Turn(0, true)));
    assert s2.cells[PoolCookie(0)] == Handler(0, true);
    assert s2.inflight[PoolCookie(0)] == 1;
  }

  // The loop itself.

  function DispatchAll(s: State, script: seq<Event>): State {
    if script == [] then s else Dispatch(DispatchAll(s, script[..|script| - 1]), script[|script| - 1])
  }

  lemma DispatchAllNext(s: State, script: seq<Event>, i: nat)
    requires i < |script|
    ensures DispatchAll(s, script[..i + 1]) == Dispatch(DispatchAll(s, script[..i]), script[i])
  {
    assert script[..i + 1][..i] == script[..i];
  }

  ghost function RunStates(s: State, script: seq<Event>): seq<State> {
    seq(|script| + 1, i requires 0 <= i <= |script| => DispatchAll(s, script[..i]))
  }

  lemma DispatchAllIsRun(s: State, script: seq<Event>)
    requires forall i :: 0 <= i < |script| ==> script[i].cookie in DispatchAll(s, script[..i]).inflight
    ensures var states := RunStates(s, script);
            IsRun(states, script) && states[0] == s && states[|script|] == DispatchAll(s, script)
  {
    var states := RunStates(s, script);
    forall i | 0 <= i < |script|
      ensures states[i + 1] == Dispatch(states[i], script[i])
    {
      DispatchAllNext(s, script, i);
    }
    assert script[..|script|] == script;
  }

  class Executor {
    var cells: map<Cookie, Cell>
    const reqOrHandlerPool: ObjectPoolLite
    const stacks: ObjectPoolLite
    var inflight: multiset<Cookie>
    var fault: Fault

    ghost predicate Valid()
      reads this
    {
      reqOrHandlerPool != stacks
    }

    ghost function View(): State
      reads this, reqOrHandlerPool, stacks
    {
      State(cells, reqOrHandlerPool.View(), stacks.View(), inflight, fault)
    }

    constructor ()
      ensures Valid() && View() == Start() && fresh(reqOrHandlerPool) && fresh(stacks)
    {
      stacks := new ObjectPoolLite(10);
      reqOrHandlerPool := new ObjectPoolLite(10);
      cells := map[RECV := Request];
      inflight := multiset{RECV};
      fault := NoFault;
    }

    method SwitchHere(c: Cookie, stack: Stack, turn: Turn)
      requires Valid() && c > 0
      modifies this, reqOrHandlerPool, stacks
      ensures Valid() && View() == RunHandler(old(View()), c, stack, turn)
    {
      inflight := inflight + Times(c, turn.ops);
      if turn.finishes {
        cells := cells[c := Handler(stack, true)];
        stacks.Put(stack);
        reqOrHandlerPool.Put(c - 1);
      }
    }

    method DispatchOne(e: Event)
      requires Valid() && (e.cookie in cells && cells[e.cookie].Handler? ==> e.cookie > 0)
      modifies this, reqOrHandlerPool, stacks
      ensures Valid() && View() == Dispatch(old(View()), e)
    {
      inflight := inflight - multiset{e.cookie};
      if e.cookie !in cells {
        fault := UnreachableBranch;
      } else if cells[e.cookie].Request? {
        var t := reqOrHandlerPool.Get();
        var stack := stacks.Get();
        var c := PoolCookie(t);
        cells := cells[c := Handler(stack, false)];
        cells := cells[e.cookie := Request];
        inflight := inflight + multiset{e.cookie};
        SwitchHere(c, stack, e.turn);
      } else if cells[e.cookie].Handler? && !cells[e.cookie].finished {
        SwitchHere(e.cookie, cells[e.cookie].stack, e.turn);
      } else if cells[e.cookie].Handler? {
        fault := DeadHandler;
      } else {
        fault := UnreachableBranch;
      }
    }

    /** The loop, for as long as completions arrive; each must be of an operation that is in flight when its
        turn comes. `states` is the run that the executor goes through. */
    method DispatchLoop(script: seq<Event>) returns (ghost states: seq<State>)
      requires Valid() && Inv(View())
      requires forall i :: 0 <= i < |script| ==> Disciplined(script[i].turn)
      requires forall i :: 0 <= i < |script| ==> script[i].cookie in DispatchAll(View(), script[..i]).inflight
      modifies this, reqOrHandlerPool, stacks
      ensures Valid() && Inv(View())
      ensures IsRun(states, script) && states[0] == old(View()) && states[|script|] == View()
    {
      ghost var start := View();
      for i := 0 to |script|
        invariant Valid() && Inv(View()) && View() == DispatchAll(start, script[..i])
      {
        DispatchInv(View(), script[i]);
        DispatchAllNext(start, script, i);
        DispatchOne(script[i]);
      }
      assert script[..|script|] == script;
      states := RunStates(start, script);
      DispatchAllIsRun(start, script);
    }
  }
}
