/** `net::Request` (netring/netring/uf.h): a move-only object that points into itself and owns one
    malloc'ed buffer. `iov` and `addr` live inside the object, so a pointer to them is the object's
    address. */
module Requests {
  import opened Options

  type Addr = nat
  type Buf = nat

  /** One object: `iov`, and the fields of `hdr` that the code touches. */
  datatype Req = Req(base: Option<Buf>, len: nat, msgIov: Option<Addr>, iovLen: nat, msgName: Option<Addr>)

  /** malloc and free: what is allocated, how often each buffer was freed, and whether a free ever
      hit a buffer that was not allocated. */
  datatype Heap = Heap(live: set<Buf>, freed: multiset<Buf>, next: Buf, bad: bool)

  /** The objects that are alive, by address. */
  datatype State = State(heap: Heap, reqs: map<Addr, Req>)

  datatype Op = Construct(a: Addr, len: nat) | Move(dst: Addr, src: Addr) | Destroy(a: Addr) | SetLen(a: Addr, len: nat)

  function Malloc(h: Heap): Heap {
    Heap(h.live + {h.next}, h.freed, h.next + 1, h.bad)
  }

  function Free(h: Heap, p: Option<Buf>): Heap {
    match p
    case None => h
    case Some(b) => if b in h.live then Heap(h.live - {b}, h.freed + multiset{b}, h.next, h.bad) else h.(bad := true)
  }

  function Built(a: Addr, base: Buf, len: nat): Req {
    Req(Some(base), len, Some(a), 1, Some(a))
  }

  /** What the move constructor copies before it sets its own two pointers, and after. */
  function MovedTo(from: Req, dst: Addr): Req {
    from.(msgIov := Some(dst), msgName := Some(dst))
  }

  function MovedFrom(from: Req, iovLen: nat): Req {
    if iovLen > 0 then from.(base := None) else from
  }

  function Cleared(r: Req): Req {
    r.(msgIov := None, msgName := None, iovLen := 0)
  }

  /** `clear`: frees through `hdr.msg_iov`, whoever that points at. There is never a second entry. */
  function Clear(s: State, a: Addr): State
    requires a in s.reqs
  {
    var r := s.reqs[a];
    if r.iovLen == 0 then s.(reqs := s.reqs[a := Cleared(r)])
    else if r.iovLen == 1 && r.msgIov.Some? && r.msgIov.value in s.reqs then
      var p := r.msgIov.value;
      var t := s.(heap := Free(s.heap, s.reqs[p].base), reqs := s.reqs[p := s.reqs[p].(len := 0)]);
      t.(reqs := t.reqs[a := Cleared(t.reqs[a])])
    else s.(heap := s.heap.(bad := true))
  }

  predicate Enabled(s: State, op: Op) {
    match op
    case Construct(a, _) => a !in s.reqs
    case Move(dst, src) => dst !in s.reqs && src in s.reqs
    case Destroy(a) => a in s.reqs
    case SetLen(a, _) => a in s.reqs
  }

  function Apply(s: State, op: Op): State
    requires Enabled(s, op)
  {
    match op
    case Construct(a, len) => State(Malloc(s.heap), s.reqs[a := Built(a, s.heap.next, len)])
    case Move(dst, src) =>
      var from := s.reqs[src];
      var to := MovedTo(from, dst);
      Clear(s.(reqs := s.reqs[dst := to][src := MovedFrom(from, to.iovLen)]), src)
    case Destroy(a) => var t := Clear(s, a); t.(reqs := t.reqs - {a})
    case SetLen(a, len) => s.(reqs := s.reqs[a := s.reqs[a].(len := len)])
  }

  ghost predicate IsRun(states: seq<State>, ops: seq<Op>) {
    && |states| == |ops| + 1
    && forall i :: 0 <= i < |ops| ==> Enabled(states[i], ops[i]) && states[i + 1] == Apply(states[i], ops[i])
  }

  const EMPTY: State := State(Heap({}, multiset{}, 0, false), map[])

  /** Not moved from: the object owns a buffer and its pointers point into itself. */
  predicate Whole(s: State, a: Addr) {
    && a in s.reqs
    && s.reqs[a].iovLen == 1 && s.reqs[a].msgIov == Some(a) && s.reqs[a].msgName == Some(a)
    && s.reqs[a].base.Some? && s.reqs[a].base.value in s.heap.live
  }

  /** Moved from: `clear` would free nothing. */
  predicate Hollow(s: State, a: Addr) {
    a in s.reqs && s.reqs[a].iovLen == 0
  }

  ghost predicate ObjectsOk(s: State) {
    forall a :: a in s.reqs ==> Whole(s, a) || Hollow(s, a)
  }

  /** The object's buffer is x. */
  predicate Owns(s: State, a: Addr, x: Buf) {
    Whole(s, a) && s.reqs[a].base == Some(x)
  }

  ghost predicate OwnersApart(s: State) {
    forall a, b, x :: Owns(s, a, x) && Owns(s, b, x) ==> a == b
  }

  ghost predicate Owned(s: State) {
    forall x :: x in s.heap.live ==> exists a :: Owns(s, a, x)
  }

  /** Each buffer ever allocated is either allocated still or was freed once. */
  ghost predicate HeapOk(h: Heap) {
    && !h.bad
    && forall x: Buf :: h.freed[x] + (if x in h.live then 1 else 0) == if x < h.next then 1 else 0
  }

  ghost predicate Inv(s: State) {
    ObjectsOk(s) && OwnersApart(s) && Owned(s) && HeapOk(s.heap)
  }

  /** A new request has the length asked for and a buffer that nobody had, and points at itself; no other
      object changes. */
  lemma ConstructExactly(s: State, a: Addr, len: nat) returns (b: Buf)
    requires Inv(s) && Enabled(s, Construct(a, len))
    ensures var t := Apply(s, Construct(a, len));
            && b !in s.heap.live && s.heap.freed[b] == 0
            && t.heap.live == s.heap.live + {b} && t.heap.freed == s.heap.freed
            && t.reqs.Keys == s.reqs.Keys + {a} && (forall d :: d in s.reqs ==> t.reqs[d] == s.reqs[d])
            && t.reqs[a].len == len && t.reqs[a].base == Some(b) && t.reqs[a].iovLen == 1
            && t.reqs[a].msgIov == Some(a) && t.reqs[a].msgName == Some(a)
  {
    b := s.heap.next;
    assert s.heap.freed[b] + (if b in s.heap.live then 1 else 0) == 0;
  }

  /** Setting a length changes that length only. */
  lemma SetLenExactly(s: State, a: Addr, len: nat)
    requires Enabled(s, SetLen(a, len))
    ensures var t, r := Apply(s, SetLen(a, len)), s.reqs[a];
            && t.heap == s.heap && t.reqs.Keys == s.reqs.Keys
            && (forall d :: d in s.reqs && d != a ==> t.reqs[d] == s.reqs[d])
            && t.reqs[a] == Req(r.base, len, r.msgIov, r.iovLen, r.msgName)
  {
  }

  /** A free is a fault exactly if its buffer is not allocated, and otherwise ends the allocation. */
  lemma FreeExactly(h: Heap, b: Buf)
    ensures Free(h, Some(b)).bad <==> h.bad || b !in h.live
    ensures Free(h, None) == h
    ensures b in h.live ==> Free(h, Some(b)).live == h.live - {b} && Free(h, Some(b)).freed == h.freed + multiset{b}
    ensures Free(Free(h, Some(b)), Some(b)).bad
  {
  }

  /** If two objects ever had the same buffer, as a copy without the two pointers would leave them,
      destroying both would be a fault. */
  lemma SharedBufferIsFreedTwice(s: State, a: Addr, b: Addr)
    requires Whole(s, a) && Whole(s, b) && a != b && s.reqs[a].base == s.reqs[b].base
    ensures Enabled(s, Destroy(a)) && Enabled(Apply(s, Destroy(a)), Destroy(b))
    ensures Apply(Apply(s, Destroy(a)), Destroy(b)).heap.bad
  {
    var x := s.reqs[a].base.value;
    var t := Apply(s, Destroy(a));
    assert t.heap == Free(s.heap, Some(x)) && t.reqs[b] == s.reqs[b];
    FreeExactly(s.heap, x);
  }

  /** Destroying an object whose header points at one that is gone is a fault. */
  lemma DanglingHeaderIsFault(s: State, a: Addr, p: Addr)
    requires a in s.reqs && s.reqs[a].iovLen > 0 && s.reqs[a].msgIov == Some(p) && p !in s.reqs
    ensures Apply(s, Destroy(a)).heap.bad
  {
  }

  lemma ConstructOwners(s: State, a: Addr, len: nat)
    requires Inv(s) && Enabled(s, Construct(a, len))
    ensures var t := Apply(s, Construct(a, len));
            forall b, x :: Owns(t, b, x) <==> Owns(s, b, x) || (b == a && x == s.heap.next)
    ensures s.heap.next !in s.heap.live
  {
    assert s.heap.freed[s.heap.next] + (if s.heap.next in s.heap.live then 1 else 0) == 0;
  }

  lemma ConstructInv(s: State, a: Addr, len: nat)
    requires Inv(s) && Enabled(s, Construct(a, len))
    ensures Inv(Apply(s, Construct(a, len)))
  {
    var t := Apply(s, Construct(a, len));
    ConstructOwners(s, a, len);
    assert Owns(t, a, s.heap.next);
    forall x | x in t.heap.live
      ensures exists b :: Owns(t, b, x)
    {
      if x in s.heap.live {
        var b :| Owns(s, b, x);
        assert Owns(t, b, x);
      }
    }
    forall b | b in t.reqs
      ensures Whole(t, b) || Hollow(t, b)
    {
      assert b != a ==> Whole(s, b) || Hollow(s, b);
    }
  }

  /** A move hands the buffer over: same buffer, same length, pointers at the new object; the old
      one is hollow, and no buffer is allocated or freed. */
  lemma MoveTransfers(s: State, dst: Addr, src: Addr)
    requires Inv(s) && Enabled(s, Move(dst, src))
    ensures var t := Apply(s, Move(dst, src));
            && t.heap == s.heap && t.reqs.Keys == s.reqs.Keys + {dst}
            && t.reqs[dst].msgIov == Some(dst) && t.reqs[dst].msgName == Some(dst)
            && t.reqs[dst].base == s.reqs[src].base && t.reqs[dst].len == s.reqs[src].len
            && Hollow(t, src) && t.reqs[src].msgIov == None && t.reqs[src].msgName == None
            && (Whole(s, src) ==> t.reqs[src].base == None && t.reqs[src].len == 0)
            && (Whole(s, src) ==>
                  Whole(t, dst) && t.reqs[dst].base == s.reqs[src].base && t.reqs[dst].len == s.reqs[src].len)
            && (Hollow(s, src) ==> Hollow(t, dst))
            && (forall a :: a in s.reqs && a != src ==> t.reqs[a] == s.reqs[a])
  {
    var from := s.reqs[src];
    assert Whole(s, src) || Hollow(s, src);
    var u := s.(reqs := s.reqs[dst := MovedTo(from, dst)][src := MovedFrom(from, from.iovLen)]);
    assert Apply(s, Move(dst, src)) == Clear(u, src);
  }

  lemma MoveOwners(s: State, dst: Addr, src: Addr)
    requires Inv(s) && Enabled(s, Move(dst, src))
    ensures var t := Apply(s, Move(dst, src));
            forall b, x :: Owns(t, b, x) <==> if b == dst then Owns(s, src, x) else b != src && Owns(s, b, x)
  {
    MoveTransfers(s, dst, src);
    assert Whole(s, src) || Hollow(s, src);
  }

  lemma MoveInv(s: State, dst: Addr, src: Addr)
    requires Inv(s) && Enabled(s, Move(dst, src))
    ensures Inv(Apply(s, Move(dst, src)))
  {
    MoveTransfers(s, dst, src);
    MoveOwners(s, dst, src);
    var t := Apply(s, Move(dst, src));
    assert Whole(s, src) || Hollow(s, src);
    forall a | a in t.reqs
      ensures Whole(t, a) || Hollow(t, a)
    {
      assert a == dst || a == src || t.reqs[a] == s.reqs[a];
    }
    forall x | x in t.heap.live
      ensures exists a :: Owns(t, a, x)
    {
      var b :| Owns(s, b, x);
      assert Owns(t, if b == src then dst else b, x);
    }
  }

  lemma DestroyShape(s: State, a: Addr)
    requires Inv(s) && a in s.reqs
    ensures var t := Apply(s, Destroy(a));
            && t.reqs == s.reqs - {a}
            && t.heap == if Whole(s, a) then Free(s.heap, s.reqs[a].base) else s.heap
  {
    assert Whole(s, a) || Hollow(s, a);
    assert Apply(s, Destroy(a)).reqs == s.reqs - {a};
  }

  lemma DestroyOwners(s: State, a: Addr)
    requires Inv(s) && a in s.reqs
    ensures var t := Apply(s, Destroy(a));
            forall b, x :: Owns(t, b, x) <==> b != a && Owns(s, b, x)
  {
    DestroyShape(s, a);
    var t := Apply(s, Destroy(a));
    forall b, x
      ensures Owns(t, b, x) <==> b != a && Owns(s, b, x)
    {
      if b != a && Owns(s, b, x) && Whole(s, a) {
        assert Owns(s, a, s.reqs[a].base.value);
      }
    }
  }

  /** Destroying an object frees its buffer, if it still has one, and nobody else's. */
  lemma DestroyInv(s: State, a: Addr)
    requires Inv(s) && a in s.reqs
    ensures Inv(Apply(s, Destroy(a)))
    ensures Apply(s, Destroy(a)).reqs == s.reqs - {a}
    ensures Apply(s, Destroy(a)).heap == if Whole(s, a) then Free(s.heap, s.reqs[a].base) else s.heap
    ensures forall b, x :: Owns(Apply(s, Destroy(a)), b, x) <==> b != a && Owns(s, b, x)
  {
    DestroyShape(s, a);
    DestroyOwners(s, a);
    var t := Apply(s, Destroy(a));
    forall b | b in t.reqs
      ensures Whole(t, b) || Hollow(t, b)
    {
      assert Whole(s, b) || Hollow(s, b);
      if Whole(s, b) {
        assert Owns(s, b, s.reqs[b].base.value);
        assert Owns(t, b, s.reqs[b].base.value);
      }
    }
    forall x | x in t.heap.live
      ensures exists b :: Owns(t, b, x)
    {
      var b :| Owns(s, b, x);
      assert b == a ==> Whole(s, a);
      assert Owns(t, b, x);
    }
  }

  lemma SameOwners(s: State, t: State)
    requires OwnersApart(s) && Owned(s) && t.heap == s.heap
    requires forall a, x :: Owns(t, a, x) == Owns(s, a, x)
    ensures OwnersApart(t) && Owned(t)
  {
  }

  lemma SetLenInv(s: State, a: Addr, len: nat)
    requires Inv(s) && a in s.reqs
    ensures Inv(Apply(s, SetLen(a, len)))
  {
    var t := Apply(s, SetLen(a, len));
    assert forall b, x :: Owns(t, b, x) == Owns(s, b, x);
    SameOwners(s, t);
  }

  lemma EmptyInv()
    ensures Inv(EMPTY)
  {
    var h := EMPTY.heap;
    assert h == Heap({}, multiset{}, 0, false);
    assert forall x :: h.freed[x] == 0;
  }

  lemma StepInv(s: State, op: Op)
    requires Inv(s) && Enabled(s, op)
    ensures Inv(Apply(s, op))
  {
    match op
    case Construct(a, len) => ConstructInv(s, a, len);
    case Move(dst, src) => MoveInv(s, dst, src);
    case Destroy(a) => DestroyInv(s, a);
    case SetLen(a, len) => SetLenInv(s, a, len);
  }

  lemma {:induction false} RunInv(states: seq<State>, ops: seq<Op>, n: nat)
    requires IsRun(states, ops) && states[0] == EMPTY && n <= |ops|
    ensures Inv(states[n])
  {
    if n == 0 {
      EmptyInv();
    } else {
      RunInv(states, ops, n - 1);
      StepInv(states[n - 1], ops[n - 1]);
    }
  }

  /** After any sequence of constructions, moves and destructions: each allocated buffer belongs to
      exactly one object, every object that owns one points at itself, each buffer was freed at most
      once and only after it was allocated; and once no object is left every buffer was freed once. */
  lemma BuffersOwnedAndFreedOnce(states: seq<State>, ops: seq<Op>, n: nat)
    requires IsRun(states, ops) && states[0] == EMPTY && n <= |ops|
    ensures var s := states[n];
            && !s.heap.bad
            && (forall x :: x in s.heap.live ==> exists a :: Owns(s, a, x))
            && (forall a, b, x :: Owns(s, a, x) && Owns(s, b, x) ==> a == b)
            && (forall a :: a in s.reqs && s.reqs[a].iovLen > 0 ==>
                  s.reqs[a].msgIov == Some(a) && s.reqs[a].msgName == Some(a))
            && (forall x: Buf :: x < s.heap.next ==>
                  (x in s.heap.live <==> s.heap.freed[x] == 0) && s.heap.freed[x] <= 1)
            && (s.reqs == map[] ==> forall x: Buf :: s.heap.freed[x] == if x < s.heap.next then 1 else 0)
  {
    RunInv(states, ops, n);
    var s := states[n];
    assert forall x: Buf :: s.heap.freed[x] + (if x in s.heap.live then 1 else 0) == if x < s.heap.next then 1 else 0;
    if s.reqs == map[] {
      assert forall a :: !Whole(s, a);
      assert forall x :: x !in s.heap.live;
    }
  }

  /** The length of the object at a after these operations: that of its construction, or of the last time
      it was set, wherever the object was then. */
  ghost function LengthAfter(ops: seq<Op>, a: Addr): nat
    decreases |ops|
  {
    if ops == [] then 0
    else
      var before := ops[..|ops| - 1];
      match ops[|ops| - 1]
      case Construct(d, len) => if d == a then len else LengthAfter(before, a)
      case SetLen(d, len) => if d == a then len else LengthAfter(before, a)
      case Move(dst, src) => LengthAfter(before, if dst == a then src else a)
      case Destroy(_) => LengthAfter(before, a)
  }

  lemma StepLength(s: State, op: Op, a: Addr, length: Addr -> nat)
    requires Inv(s) && Enabled(s, op) && Whole(Apply(s, op), a)
    requires forall d :: Whole(s, d) ==> s.reqs[d].len == length(d)
    ensures Apply(s, op).reqs[a].len ==
            match op
            case Construct(d, len) => if d == a then len else length(a)
            case SetLen(d, len) => if d == a then len else length(a)
            case Move(dst, src) => length(if dst == a then src else a)
            case Destroy(_) => length(a)
  {
    match op
    case Construct(d, len) =>
      var b := ConstructExactly(s, d, len);
      assert a != d ==> Whole(s, a) || Hollow(s, a);
    case SetLen(d, len) => assert Whole(s, a) || Hollow(s, a);
    case Move(dst, src) =>
      MoveTransfers(s, dst, src);
      assert Whole(s, src) || Hollow(s, src);
      assert a != dst ==> Whole(s, a) || Hollow(s, a);
    case Destroy(d) =>
      DestroyShape(s, d);
      assert Whole(s, a) || Hollow(s, a);
  }

  /** A request keeps its length through every move. */
  lemma {:induction false} LengthCarried(states: seq<State>, ops: seq<Op>, n: nat, a: Addr)
    requires IsRun(states, ops) && states[0] == EMPTY && n <= |ops| && Whole(states[n], a)
    ensures states[n].reqs[a].len == LengthAfter(ops[..n], a)
  {
    if n > 0 {
      var s, before := states[n - 1], ops[..n - 1];
      RunInv(states, ops, n - 1);
      forall d | Whole(s, d)
        ensures s.reqs[d].len == LengthAfter(before, d)
      {
        LengthCarried(states, ops, n - 1, d);
      }
      StepLength(s, ops[n - 1], a, d => LengthAfter(before, d));
      assert ops[..n][..n - 1] == before;
    }
  }

  // Pools and variants move a request through a temporary.

  /** Runs the operations in order, as long as each is possible. */
  function ApplyAll(s: State, ops: seq<Op>): Option<State>
    decreases |ops|
  {
    if ops == [] then Some(s)
    else if Enabled(s, ops[0]) then ApplyAll(Apply(s, ops[0]), ops[1..])
    else None
  }

  /** One move followed by the destruction of its source: `put`, or `emplace` from a temporary. */
  function Relocate(dst: Addr, src: Addr): seq<Op> {
    [Move(dst, src), Destroy(src)]
  }

  /** The buffer and length sit in a new place; everything else is as before. */
  ghost predicate Relocated(s: State, t: State, dst: Addr, src: Addr) {
    && Inv(t) && t.heap == s.heap && t.reqs.Keys == s.reqs.Keys - {src} + {dst}
    && src in s.reqs && Whole(t, dst) && t.reqs[dst].base == s.reqs[src].base && t.reqs[dst].len == s.reqs[src].len
    && forall a :: a in s.reqs && a != src ==> a in t.reqs && t.reqs[a] == s.reqs[a]
  }

  lemma MoveAndDestroy(s: State, dst: Addr, src: Addr)
    requires Inv(s) && Whole(s, src) && dst !in s.reqs
    ensures var u := Apply(s, Move(dst, src));
            src in u.reqs && Relocated(s, Apply(u, Destroy(src)), dst, src)
  {
    MoveTransfers(s, dst, src);
    MoveInv(s, dst, src);
    DestroyShape(Apply(s, Move(dst, src)), src);
    DestroyInv(Apply(s, Move(dst, src)), src);
  }

  lemma RelocateTransfers(s: State, dst: Addr, src: Addr)
    requires Inv(s) && Whole(s, src) && dst !in s.reqs
    ensures var end := ApplyAll(s, Relocate(dst, src));
            end.Some? && Relocated(s, end.value, dst, src)
  {
    MoveAndDestroy(s, dst, src);
    var u := Apply(s, Move(dst, src));
    assert Relocate(dst, src)[1..] == [Destroy(src)];
    assert ApplyAll(u, [Destroy(src)]) == ApplyAll(Apply(u, Destroy(src)), []);
  }

  lemma {:induction false} ApplyConcat(s: State, ops: seq<Op>, more: seq<Op>)
    ensures ApplyAll(s, ops + more) == match ApplyAll(s, ops) case None => None case Some(t) => ApplyAll(t, more)
    decreases |ops|
  {
    if ops == [] {
      assert ops + more == more;
    } else {
      assert (ops + more)[1..] == ops[1..] + more;
      if Enabled(s, ops[0]) {
        ApplyConcat(Apply(s, ops[0]), ops[1..], more);
      }
    }
  }

  /** `ObjectPoolLite::get`: move out of the last slot, drop the slot, move into the result. What
      comes out is what was in the slot, pointing at itself in its new place, with no allocation and
      no free on the way. */
  lemma PoolGetTransfers(s: State, slot: Addr, local: Addr, result: Addr)
    requires Inv(s) && Whole(s, slot) && local !in s.reqs && result !in s.reqs && local != result
    ensures var end := ApplyAll(s, Relocate(local, slot) + Relocate(result, local));
            end.Some? && Relocated(s, end.value, result, slot)
  {
    RelocateTransfers(s, local, slot);
    var t := ApplyAll(s, Relocate(local, slot)).value;
    RelocateTransfers(t, result, local);
    ApplyConcat(s, Relocate(local, slot), Relocate(result, local));
  }

  // The class itself.

  class Allocator {
    var live: set<Buf>
    var freed: multiset<Buf>
    var next: Buf
    var bad: bool

    function View(): Heap
      reads this
    {
      Heap(live, freed, next, bad)
    }

    constructor ()
      ensures View() == EMPTY.heap
    {
      live, freed, next, bad := {}, multiset{}, 0, false;
    }

    method Allocate() returns (b: Buf)
      modifies this
      ensures b == old(next) && View() == Malloc(old(View()))
    {
      b := next;
      live := live + {b};
      next := next + 1;
    }

    method Release(p: Option<Buf>)
      modifies this
      ensures View() == Free(old(View()), p)
    {
      if p.Some? {
        if p.value in live {
          live := live - {p.value};
          freed := freed + multiset{p.value};
        } else {
          bad := true;
        }
      }
    }
  }

  class Request {
    const addr: Addr
    var iovBase: Option<Buf>
    var iovLen: nat
    var msgIov: Request?
    var msgIovLen: nat
    var msgName: Request?

    /** The object as a value. */
    ghost function Value(): Req
      reads this
    {
      Req(iovBase, iovLen, if msgIov == null then None else Some(msgIov.addr), msgIovLen,
          if msgName == null then None else Some(msgName.addr))
    }

    /** Owns a buffer and points at itself, or owns nothing. */
    ghost predicate Valid()
      reads this
    {
      msgIovLen == 0 || (msgIovLen == 1 && msgIov == this && msgName == this && iovBase.Some?)
    }

    constructor (heap: Allocator, addr: Addr, len: nat)
      modifies heap
      ensures Valid() && this.addr == addr && Value() == Built(addr, old(heap.next), len)
      ensures iovLen == len && iovBase == Some(old(heap.next)) && msgIovLen == 1 && msgIov == this && msgName == this
      ensures heap.View() == Malloc(old(heap.View()))
    {
      this.addr := addr;
      msgIov, msgName, msgIovLen := this, this, 1;
      iovBase, iovLen := None, len;
      new;
      var b := heap.Allocate();
      iovBase := Some(b);
    }

    /** The move constructor. */
    constructor MoveFrom(heap: Allocator, addr: Addr, other: Request)
      requires other.Valid()
      modifies heap, other
      ensures Valid() && this.addr == addr && Value() == MovedTo(old(other.Value()), addr)
      ensures iovBase == old(other.iovBase) && iovLen == old(other.iovLen) && msgIovLen == old(other.msgIovLen)
      ensures msgIov == this && msgName == this
      ensures other.Valid() && other.Value() == Cleared(other.Value())
      ensures other.Value().base == MovedFrom(old(other.Value()), old(other.msgIovLen)).base
      ensures other.msgIov == null && other.msgName == null && other.msgIovLen == 0
      ensures old(other.msgIovLen) == 1 ==> other.iovBase == None && other.iovLen == 0
      ensures old(other.msgIovLen) == 0 ==> other.iovBase == old(other.iovBase) && other.iovLen == old(other.iovLen)
      ensures heap.View() == old(heap.View())
    {
      this.addr := addr;
      iovBase, iovLen := other.iovBase, other.iovLen;
      msgIov, msgIovLen, msgName := this, other.msgIovLen, this;
      new;
      var i := 0;
      while i < msgIovLen
        invariant 0 <= i <= msgIovLen && msgIovLen == old(other.msgIovLen) && msgIov == this && msgName == this
        invariant iovBase == old(other.iovBase) && iovLen == old(other.iovLen)
        invariant other.msgIovLen == old(other.msgIovLen) && other.msgIov == old(other.msgIov)
        invariant other.iovLen == old(other.iovLen)
        invariant other.iovBase == if i > 0 then None else old(other.iovBase)
        invariant heap.View() == old(heap.View())
      {
        other.iovBase := None;
        i := i + 1;
      }
      other.Clear(heap);
    }

    /** Frees what `hdr.msg_iov` points at, unless the object is hollow. */
    method Clear(heap: Allocator)
      requires msgIovLen == 0 || (msgIovLen == 1 && msgIov == this)
      modifies heap, this
      ensures heap.View() == if old(msgIovLen) == 1 then Free(old(heap.View()), old(iovBase)) else old(heap.View())
      ensures Value() == Cleared(old(Value())).(len := if old(msgIovLen) == 1 then 0 else old(iovLen))
      ensures msgIov == null && msgName == null && msgIovLen == 0 && iovBase == old(iovBase)
      ensures iovLen == if old(msgIovLen) == 1 then 0 else old(iovLen)
    {
      var i := 0;
      while i < msgIovLen
        invariant 0 <= i <= msgIovLen && msgIovLen == old(msgIovLen) && iovBase == old(iovBase)
        invariant msgIov == old(msgIov) && iovLen == if i == 1 then 0 else old(iovLen)
        invariant heap.View() == if i == 1 then Free(old(heap.View()), old(iovBase)) else old(heap.View())
      {
        heap.Release(msgIov.iovBase);
        msgIov.iovLen := 0;
        i := i + 1;
      }
      msgIov, msgName, msgIovLen := null, null, 0;
    }
  }
}
