/** `five::ObjectPoolLite` (five/five/object_pool.h) over handles: what the factory makes is numbered
    in the order it is made. */
module ObjectPools {

  /** `five::Xrange` (five/five/xrange.h): both ends of the iteration sit at the start. */
  datatype Xrange = Xrange(start: int, stop: int, step: int) {
    function Begin(): int { start }
    function End(): int { start }
  }

  /** A pool's free objects and how many objects its factory has made. */
  datatype Pool = Pool(objects: seq<nat>, made: nat)

  /** The object `get` hands out, and the pool after it. */
  function Taken(p: Pool): (nat, Pool) {
    if p.objects != [] then (p.objects[|p.objects| - 1], p.(objects := p.objects[..|p.objects| - 1]))
    else (p.made, p.(made := p.made + 1))
  }

  function Returned(p: Pool, t: nat): Pool {
    p.(objects := p.objects + [t])
  }

  ghost predicate Distinct(xs: seq<nat>) {
    forall i, j :: 0 <= i < j < |xs| ==> xs[i] != xs[j]
  }

  /** Free objects are distinct, were made here, and are not out; the rest of those made are out. */
  ghost predicate Partitions(p: Pool, out: set<nat>) {
    && Distinct(p.objects)
    && (forall x :: x in p.objects ==> x < p.made && x !in out)
    && (forall x :: x in out ==> x < p.made)
    && |p.objects| + |out| == p.made
  }

  lemma EmptyPartitions()
    ensures Partitions(Pool([], 0), {})
  {
  }

  /** `get` hands out an object nobody else has. */
  lemma GetPartitions(p: Pool, out: set<nat>)
    requires Partitions(p, out)
    ensures var (t, q) := Taken(p);
            t !in out && t !in q.objects && t < q.made && p.made <= q.made && Partitions(q, out + {t})
  {
    var (t, q) := Taken(p);
    if p.objects == [] {
      assert |out + {t}| == |out| + 1;
    } else {
      var n := |p.objects| - 1;
      assert t == p.objects[n] && t in p.objects;
      assert forall x :: x in q.objects ==> x in p.objects;
      assert |out + {t}| == |out| + 1;
    }
  }

  /** `put` takes back an object that is out. */
  lemma PutPartitions(p: Pool, out: set<nat>, t: nat)
    requires Partitions(p, out) && t in out
    ensures Partitions(Returned(p, t), out - {t})
  {
    assert |out - {t}| == |out| - 1;
    var q := Returned(p, t);
    forall i, j | 0 <= i < j < |q.objects|
      ensures q.objects[i] != q.objects[j]
    {
      assert q.objects[i] in p.objects;
    }
  }

  /** The pool is a stack: what was put back last is handed out first. */
  lemma PutThenGet(p: Pool, t: nat)
    ensures Taken(Returned(p, t)) == (t, p)
  {
    assert Returned(p, t).objects[..|p.objects|] == p.objects;
  }

  class ObjectPoolLite {
    var objects: seq<nat>
    var made: nat

    function View(): Pool
      reads this
    {
      Pool(objects, made)
    }

    /** The loop over `xrange(initial)` ends before it begins, so every pool starts empty. */
    constructor (initial: nat)
      ensures View() == Pool([], 0)
    {
      objects, made := [], 0;
      new;
      var range := Xrange(0, initial, 1);
      Fill(range.Begin(), range.End());
    }

    /** What the constructor does for each turn of its loop. */
    method Fill(begin: int, end: int)
      requires begin <= end
      modifies this
      ensures made == old(made) + (end - begin)
      ensures objects == old(objects) + seq(end - begin, i requires 0 <= i => old(made) + i)
    {
      var i := begin;
      while i != end
        invariant begin <= i <= end && made == old(made) + (i - begin)
        invariant objects == old(objects) + seq(i - begin, h requires 0 <= h => old(made) + h)
      {
        objects := objects + [made];
        made := made + 1;
        i := i + 1;
      }
    }

    method Get() returns (t: nat)
      modifies this
      ensures (t, View()) == Taken(old(View()))
    {
      if objects != [] {
        t := objects[|objects| - 1];
        objects := objects[..|objects| - 1];
        return;
      }
      t := made;
      made := made + 1;
    }

    method Put(t: nat)
      modifies this
      ensures View() == Returned(old(View()), t)
    {
      objects := objects + [t];
    }

    method Size() returns (n: nat)
      ensures n == |View().objects|
    {
      n := |objects|;
    }
  }
}
