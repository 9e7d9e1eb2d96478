/** The submission and completion queues behind `net::Ring` (ring2/ring2/ring.h, ring.cc).

    The queues are shared with the kernel, so their evolution has two authors: the methods of
    `Ring` below and the kernel functions `Take` and `Complete`. A setter's address, which the
    original stores in `user_data`, is a `SetterId`. */
module Rings {
  import opened Options

  /** `pending_count_` is a size_t. */
  const U64: nat := 0x1_0000_0000_0000_0000
  /** The most CQEs one `try_poll_many` reaps. */
  const BATCH: nat := 16

  datatype Half = Operation | LinkTimeout
  /** The setter of one half of one `ring_submit`: fiber, how many calls it made before, half. */
  datatype SetterId = SetterId(fiber: nat, call: nat, half: Half)
  datatype Sqe = Sqe(data: SetterId, link: bool)
  datatype Cqe = Cqe(data: SetterId, res: int)

  /** `struct io_uring`: SQEs built but not flushed, SQEs the kernel can see, requests it has
      taken, completions nobody has reaped. */
  datatype Queues = Queues(entries: nat, built: seq<Sqe>, visible: seq<Sqe>, inflight: seq<SetterId>, cq: seq<Cqe>)

  function SqeIds(q: seq<Sqe>): (ids: seq<SetterId>)
    ensures |ids| == |q| && forall i :: 0 <= i < |q| ==> ids[i] == q[i].data
  {
    seq(|q|, i requires 0 <= i < |q| => q[i].data)
  }

  function CqeIds(q: seq<Cqe>): (ids: seq<SetterId>)
    ensures |ids| == |q| && forall i :: 0 <= i < |q| ==> ids[i] == q[i].data
  {
    seq(|q|, i requires 0 <= i < |q| => q[i].data)
  }

  /** The setters named by SQEs and requests that have no completion yet. */
  function Uncompleted(q: Queues): multiset<SetterId> {
    multiset(SqeIds(q.built)) + multiset(SqeIds(q.visible)) + multiset(q.inflight)
  }

  /** Every `user_data` anywhere in the queues. */
  function Load(q: Queues): multiset<SetterId> {
    Uncompleted(q) + multiset(CqeIds(q.cq))
  }

  /** `io_uring_get_sqe` finds a slot: an entry stays occupied until the kernel takes it. */
  predicate CanGetSqe(q: Queues) {
    |q.built| + |q.visible| < q.entries
  }

  function Build(q: Queues, sqe: Sqe): Queues {
    q.(built := q.built + [sqe])
  }

  /** The kernel takes a linked SQE together with its successor, unless none is visible. */
  predicate LinkSafe(published: seq<Sqe>, k: nat) {
    k <= |published| && (0 < k < |published| ==> !published[k - 1].link)
  }

  function Clip(k: nat, bound: nat): (r: nat)
    ensures r <= k && r <= bound
  {
    if k <= bound then k else bound
  }

  /** The kernel takes the k oldest visible SQEs. */
  function Take(q: Queues, k: nat): Queues {
    var c := Clip(k, |q.visible|);
    q.(visible := q.visible[c..], inflight := q.inflight + SqeIds(q.visible[..c]))
  }

  /** `io_uring_submit`: everything built becomes visible. The kernel thread runs beside it and
      may take k entries before the queue length is read for the return value. */
  function Flush(q: Queues, k: nat): Queues {
    Take(q.(built := [], visible := q.visible + q.built), k)
  }

  /** The kernel finishes some request it has taken. */
  function Complete(q: Queues, i: nat, res: int): Queues
    requires i < |q.inflight|
  {
    q.(inflight := q.inflight[..i] + q.inflight[i + 1..], cq := q.cq + [Cqe(q.inflight[i], res)])
  }

  type SizeT = n: nat | n < U64

  /** The state of one `Ring` object. */
  datatype RingState = RingState(q: Queues, pending: SizeT, cycles: nat, times: nat)

  function Wrap(x: int): (r: SizeT)
    ensures 0 <= x < U64 ==> r == x
  {
    x % U64
  }

  /** A failed `io_uring_get_sqe`. */
  function Starve(r: RingState): RingState {
    r.(cycles := r.cycles + 1)
  }

  /** The tail of `Ring::submit`, once an SQE was obtained. */
  function Place(r: RingState, starved: bool, sqe: Sqe, nextIsTimeout: bool, taken: nat): RingState {
    var b := Build(r.q, sqe);
    RingState(if nextIsTimeout then b else Flush(b, taken), Wrap(r.pending + 1), r.cycles,
              if starved then r.times + 1 else r.times)
  }

  /** The k oldest completions leave the queue. */
  function Reap(r: RingState, k: nat): RingState
    requires k <= |r.q.cq|
  {
    r.(q := r.q.(cq := r.q.cq[k..]), pending := Wrap(r.pending - k))
  }

  /** Where `Ring::submit` first finds a slot among the ring states it wakes up in. */
  function FirstFree(seen: seq<RingState>): (j: nat)
    ensures j <= |seen|
    ensures forall i :: 0 <= i < j ==> !CanGetSqe(seen[i].q)
    ensures j < |seen| ==> CanGetSqe(seen[j].q)
  {
    if seen == [] || CanGetSqe(seen[0].q) then 0 else 1 + FirstFree(seen[1..])
  }

  lemma FirstFreeIs(seen: seq<RingState>, j: nat)
    requires j <= |seen|
    requires forall i :: 0 <= i < j ==> !CanGetSqe(seen[i].q)
    requires j < |seen| ==> CanGetSqe(seen[j].q)
    ensures FirstFree(seen) == j
  {
  }

  datatype SubmitResult = Starving | InProgress | Submitted(ret: nat)

  class Ring {
    var ring: Queues
    var pendingCount: SizeT
    var starvationCycles: nat
    var starvationTimes: nat

    function View(): RingState
      reads this
    {
      RingState(ring, pendingCount, starvationCycles, starvationTimes)
    }

    constructor (entries: nat)
      ensures View() == RingState(Queues(entries, [], [], [], []), 0, 0, 0)
    {
      ring := Queues(entries, [], [], [], []);
      pendingCount, starvationCycles, starvationTimes := 0, 0, 0;
    }

    /** Other fibers and the kernel run during a `tf::Yield`; `found` is what they leave. */
    method Yield(found: RingState)
      modifies this
      ensures View() == found
    {
      ring, pendingCount := found.q, found.pending;
      starvationCycles, starvationTimes := found.cycles, found.times;
    }

    /** `resumes` lists the ring states in which the scheduler resumes this fiber; when they run
        out with no slot found the call is still waiting. `yielded` are the states it yields in. Each
        attempt that finds no slot counts one cycle, and a call that found one only after such an
        attempt counts as one starvation. */
    method Submit(sqe: Sqe, nextIsTimeout: bool, resumes: seq<RingState>, taken: nat)
      returns (result: SubmitResult, ghost yielded: seq<RingState>)
      modifies this
      ensures var seen := [old(View())] + resumes;
              var j := FirstFree(seen);
              && |yielded| == (if j == |seen| then |resumes| else j)
              && (forall i :: 0 <= i < |yielded| ==> yielded[i] == seen[i].(cycles := seen[i].cycles + 1))
              && (j == |seen| ==>
                    starvationCycles == seen[j - 1].cycles + 1 && starvationTimes == seen[j - 1].times)
              && (j < |seen| ==> starvationCycles == seen[j].cycles &&
                                 starvationTimes == seen[j].times + if j > 0 then 1 else 0)
      ensures var seen := [old(View())] + resumes;
              var j := FirstFree(seen);
              if j == |seen| then
                result == Starving && View() == Starve(seen[|seen| - 1])
              else
                && View() == Place(seen[j], j > 0, sqe, nextIsTimeout, taken)
                && result == if nextIsTimeout then InProgress else Submitted(|View().q.visible|)
    {
      ghost var seen := [View()] + resumes;
      var got := false;
      var starved := false;
      var i := 0;
      yielded := [];
      while !got
        invariant 0 <= i <= |resumes| && |yielded| == i
        invariant forall h :: 0 <= h < i ==> yielded[h] == seen[h].(cycles := seen[h].cycles + 1)
        invariant View() == seen[i]
        invariant starved <==> i > 0
        invariant forall h :: 0 <= h < i ==> !CanGetSqe(seen[h].q)
        invariant got ==> CanGetSqe(seen[i].q)
        decreases |resumes| - i, !got
      {
        got := CanGetSqe(ring);
        if !got {
          starved := true;
          starvationCycles := starvationCycles + 1;
          if i == |resumes| {
            FirstFreeIs(seen, |seen|);
            return Starving, yielded;
          }
          yielded := yielded + [View()];
          Yield(resumes[i]);
          i := i + 1;
        }
      }
      FirstFreeIs(seen, i);
      if starved {
        starvationTimes := starvationTimes + 1;
      }
      ring := Build(ring, sqe);
      pendingCount := Wrap(pendingCount + 1);
      if !nextIsTimeout {
        ring := Flush(ring, taken);
        return Submitted(|ring.visible|), yielded;
      }
      return InProgress, yielded;
    }

    /** `io_uring_wait_cqe` has returned, so there is a completion. */
    method Poll() returns (useful: Cqe)
      requires ring.cq != []
      modifies this
      ensures useful == old(ring.cq)[0] && View() == Reap(old(View()), 1)
    {
      useful := ring.cq[0];
      ring := ring.(cq := ring.cq[1..]);
      pendingCount := Wrap(pendingCount - 1);
    }

    method TryPoll() returns (useful: Option<Cqe>)
      modifies this
      ensures if old(ring.cq) == [] then useful == None && View() == old(View())
              else useful == Some(old(ring.cq)[0]) && View() == Reap(old(View()), 1)
    {
      if ring.cq == [] {
        return None;
      }
      useful := Some(ring.cq[0]);
      ring := ring.(cq := ring.cq[1..]);
      pendingCount := Wrap(pendingCount - 1);
    }

    method TryPollMany(dst: array<Cqe>) returns (ret: nat)
      requires dst.Length >= BATCH
      modifies this, dst
      ensures ret == if |old(ring.cq)| <= 16 then |old(ring.cq)| else 16
      ensures dst[..ret] == old(ring.cq)[..ret] && dst[ret..] == old(dst[ret..])
      ensures View() == Reap(old(View()), ret)
    {
      var cqes := ring.cq[..Clip(BATCH, |ring.cq|)];
      ret := |cqes|;
      for i := 0 to ret
        invariant View() == old(View())
        invariant dst[..i] == cqes[..i]
        invariant forall h :: i <= h < dst.Length ==> dst[h] == old(dst[h])
      {
        dst[i] := cqes[i];
      }
      ring := ring.(cq := ring.cq[ret..]);
      pendingCount := Wrap(pendingCount - ret);
    }

    method HasPending() returns (pending: bool)
      ensures pending <==> View().pending > 0
    {
      pending := pendingCount > 0;
    }
  }

  // How the queue operations move `user_data` about.

  lemma SqeIdsConcat(a: seq<Sqe>, b: seq<Sqe>)
    ensures SqeIds(a + b) == SqeIds(a) + SqeIds(b)
  {
  }

  lemma CqeIdsConcat(a: seq<Cqe>, b: seq<Cqe>)
    ensures CqeIds(a + b) == CqeIds(a) + CqeIds(b)
  {
  }

  /** A new SQE adds its own setter to the load and nothing else. */
  lemma BuildLoad(q: Queues, sqe: Sqe)
    ensures Uncompleted(Build(q, sqe)) == Uncompleted(q) + multiset{sqe.data}
    ensures Load(Build(q, sqe)) == Load(q) + multiset{sqe.data}
  {
    SqeIdsConcat(q.built, [sqe]);
    assert SqeIds([sqe]) == [sqe.data];
  }

  /** Taking SQEs neither loses nor invents a setter. */
  lemma TakeLoad(q: Queues, k: nat)
    ensures Uncompleted(Take(q, k)) == Uncompleted(q) && Load(Take(q, k)) == Load(q)
  {
    var c := Clip(k, |q.visible|);
    assert q.visible == q.visible[..c] + q.visible[c..];
    SqeIdsConcat(q.visible[..c], q.visible[c..]);
  }

  /** Nor does flushing. */
  lemma FlushLoad(q: Queues, k: nat)
    ensures Uncompleted(Flush(q, k)) == Uncompleted(q) && Load(Flush(q, k)) == Load(q)
  {
    var p := q.(built := [], visible := q.visible + q.built);
    SqeIdsConcat(q.visible, q.built);
    assert Uncompleted(p) == Uncompleted(q);
    TakeLoad(p, k);
  }

  /** A completion moves one setter from the uncompleted part to the completion queue. */
  lemma CompleteLoad(q: Queues, i: nat, res: int)
    requires i < |q.inflight|
    ensures Load(Complete(q, i, res)) == Load(q)
    ensures Uncompleted(q) == Uncompleted(Complete(q, i, res)) + multiset{q.inflight[i]}
  {
    var f := q.inflight;
    assert f == f[..i] + [f[i]] + f[i + 1..];
    CqeIdsConcat(q.cq, [Cqe(f[i], res)]);
    assert CqeIds([Cqe(f[i], res)]) == [f[i]];
  }

  /** Reaped completions leave the load. */
  lemma ReapLoad(r: RingState, k: nat)
    requires k <= |r.q.cq|
    ensures Load(r.q) == Load(Reap(r, k).q) + multiset(CqeIds(r.q.cq[..k]))
    ensures Uncompleted(Reap(r, k).q) == Uncompleted(r.q)
  {
    assert r.q.cq == r.q.cq[..k] + r.q.cq[k..];
    CqeIdsConcat(r.q.cq[..k], r.q.cq[k..]);
  }

  /** Placing an SQE adds its setter; the free slots pay for it. */
  lemma PlaceLoad(r: RingState, starved: bool, sqe: Sqe, nextIsTimeout: bool, taken: nat)
    requires CanGetSqe(r.q)
    ensures var p := Place(r, starved, sqe, nextIsTimeout, taken).q;
            && Uncompleted(p) == Uncompleted(r.q) + multiset{sqe.data}
            && Load(p) == Load(r.q) + multiset{sqe.data}
            && p.cq == r.q.cq && p.entries == r.q.entries
            && |p.built| + |p.visible| <= p.entries
            && p.built == if nextIsTimeout then r.q.built + [sqe] else []
  {
    BuildLoad(r.q, sqe);
    FlushLoad(Build(r.q, sqe), taken);
  }

  lemma LoadSize(q: Queues)
    ensures |Load(q)| == |q.built| + |q.visible| + |q.inflight| + |q.cq|
  {
  }
}
