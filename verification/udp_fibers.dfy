/** The bodies of one client fiber (src/infallible_udp.cc) and one UDP server fiber (src/srv2.cc). */
module UdpFibers {
  import opened Errno

  const RECV_BUF: nat := 65_000

  newtype Byte = b: int | 0 <= b < 256
  type Bytes = seq<Byte>
  type Addr = nat
  datatype Datagram = Datagram(src: Addr, dst: Addr, data: Bytes)

  /** What one iteration of the client makes of its receive. */
  datatype Verdict = Accept | Dead | Throw | BadResponse

  function Judge(ret: int, data: Bytes, expected: Bytes): Verdict {
    if ret == -ESQE_TIMEOUT || ret == -EINTR then Dead
    else if ret <= 0 then Throw
    else if data != expected then BadResponse
    else Accept
  }

  /** A receive puts at most the buffer's size into it. */
  function Truncate(data: Bytes): (r: Bytes)
    ensures r <= data && |r| == if |data| <= RECV_BUF then |data| else RECV_BUF
  {
    if |data| <= RECV_BUF then data else data[..RECV_BUF]
  }

  // The server fiber.

  /** The check the server makes before it doubles a message. */
  predicate Fits(data: Bytes) {
    2 * |Truncate(data)| < RECV_BUF
  }

  lemma FittingIsWhole(data: Bytes)
    requires Fits(data)
    ensures Truncate(data) == data && 2 * |data| < RECV_BUF
  {
  }

  /** What `recvmsg` gives the server: a datagram, or a negative result with an empty view and an
      address that nobody wrote. */
  datatype Receipt = Got(datagram: Datagram) | Failed(res: int, addr: Addr)

  /** One turn of the loop: what is received, and what the send of the reply will return. */
  datatype Turn = Turn(received: Receipt, sendRes: int)

  predicate Acceptable(received: Receipt) {
    received.Got? ==> Fits(received.datagram.data)
  }

  function Echo(d: Datagram): Datagram {
    Datagram(d.dst, d.src, d.data + d.data)
  }

  /** What is sent: the message twice to its sender, or nothing to wherever the address points. */
  function Answer(self: Addr, received: Receipt): Datagram {
    match received
    case Got(d) => Echo(d)
    case Failed(_, addr) => Datagram(self, addr, [])
  }

  /** How a server fiber's loop ends: not within the script, at the length check, or at a send. */
  datatype ServerEnd = StillServing | LengthCheckFailed | SendThrew

  class ServerFiber {
    const buf: array<Byte>

    constructor ()
      ensures buf.Length == RECV_BUF == 65_000 && fresh(buf)
    {
      buf := new Byte[RECV_BUF](_ => 0);
    }

    /** The kernel fills the buffer from its start, or leaves it alone and reports an error. */
    method Receive(received: Receipt) returns (ret: int, size: nat)
      requires buf.Length == RECV_BUF && (received.Failed? ==> received.res < 0)
      modifies buf
      ensures received.Got? ==> ret == size == |Truncate(received.datagram.data)|
      ensures received.Got? ==> buf[..] == Truncate(received.datagram.data) + old(buf[size..])
      ensures received.Failed? ==> ret == received.res < 0 && size == 0 && buf[..] == old(buf[..])
    {
      if received.Failed? {
        return received.res, 0;
      }
      var data := Truncate(received.datagram.data);
      ret, size := |data|, |data|;
      forall i | 0 <= i < size {
        buf[i] := data[i];
      }
    }

    /** The second half of the reply, copied behind the first within the same buffer. */
    method Double(n: nat)
      requires 2 * n <= buf.Length
      modifies buf
      ensures buf[..2 * n] == old(buf[..n]) + old(buf[..n]) && buf[2 * n..] == old(buf[2 * n..])
    {
      forall i | 0 <= i < n {
        buf[n + i] := buf[i];
      }
    }

    /** One turn of the loop up to its send: the datagram that is sent, unless the length check fails. */
    method ServeOne(self: Addr, received: Receipt) returns (ok: bool, reply: Datagram)
      requires buf.Length == RECV_BUF && (received.Failed? ==> received.res < 0)
      modifies buf
      ensures ok == Acceptable(received) && (ok ==> reply == Answer(self, received))
    {
      var ret, n := Receive(received);
      reply := Datagram(self, self, []);
      ok := n * 2 < RECV_BUF;
      if ok {
        if received.Got? {
          FittingIsWhole(received.datagram.data);
          assert buf[..n] == received.datagram.data;
        }
        Double(n);
        reply := match received
          case Got(d) => Datagram(d.dst, d.src, buf[..2 * n])
          case Failed(_, addr) => Datagram(self, addr, buf[..2 * n]);
      }
    }

    /** The loop, for any sequence of turns: each message is answered with itself twice, whatever earlier
        ones left in the buffer. It goes on until a message fails the length check, which is then not
        answered, or a send fails, which is the last. */
    method Serve(self: Addr, script: seq<Turn>) returns (sends: seq<Datagram>, end: ServerEnd)
      requires buf.Length == RECV_BUF
      requires forall i :: 0 <= i < |script| && script[i].received.Failed? ==> script[i].received.res < 0
      modifies buf
      ensures |sends| <= |script|
      ensures forall i :: 0 <= i < |sends| ==>
                match script[i].received
                case Got(d) => 2 * |d.data| < RECV_BUF && sends[i] == Datagram(d.dst, d.src, d.data + d.data)
                case Failed(_, addr) => sends[i] == Datagram(self, addr, [])
      ensures forall i :: 0 <= i < |sends| && script[i].sendRes < 0 ==> i == |sends| - 1 && end.SendThrew?
      ensures end.StillServing? <==> |sends| == |script| && forall i :: 0 <= i < |script| ==> script[i].sendRes >= 0
      ensures end.SendThrew? <==> sends != [] && script[|sends| - 1].sendRes < 0
      ensures end.LengthCheckFailed? <==>
                && |sends| < |script| && (sends != [] ==> script[|sends| - 1].sendRes >= 0)
                && script[|sends|].received.Got? && 2 * |script[|sends|].received.datagram.data| >= RECV_BUF
    {
      sends, end := [], StillServing;
      for i := 0 to |script|
        invariant |sends| == i && end.StillServing? && forall h :: 0 <= h < i ==> script[h].sendRes >= 0
        invariant forall h :: 0 <= h < i ==>
                    Acceptable(script[h].received) && sends[h] == Answer(self, script[h].received)
      {
        var ok, reply := ServeOne(self, script[i].received);
        if !ok {
          return sends, LengthCheckFailed;
        }
        sends := sends + [reply];
        if script[i].sendRes < 0 {
          return sends, SendThrew;
        }
      }
    }
  }

  // The client fiber.

  datatype Iteration = Iteration(sendRes: int, ret: int, data: Bytes)
  datatype Status = Finished | Thrown | Panicked

  /** The first k iterations that were given up for dead. */
  ghost function DeadIn(script: seq<Iteration>, k: nat): set<int>
    requires k <= |script|
  {
    set i | 0 <= i < k && (script[i].ret == -ESQE_TIMEOUT || script[i].ret == -EINTR)
  }

  /** Those that got a reply. */
  ghost function AnsweredIn(script: seq<Iteration>, k: nat): set<int>
    requires k <= |script|
  {
    set i | 0 <= i < k && script[i].ret > 0
  }

  lemma DeadNext(script: seq<Iteration>, k: nat)
    requires k < |script| && (script[k].ret == -ESQE_TIMEOUT || script[k].ret == -EINTR)
    ensures |DeadIn(script, k + 1)| == |DeadIn(script, k)| + 1 && AnsweredIn(script, k + 1) == AnsweredIn(script, k)
  {
    var before := DeadIn(script, k);
    assert DeadIn(script, k + 1) == before + {k} && k !in before;
  }

  lemma AnsweredNext(script: seq<Iteration>, k: nat)
    requires k < |script| && script[k].ret > 0
    ensures |AnsweredIn(script, k + 1)| == |AnsweredIn(script, k)| + 1 && DeadIn(script, k + 1) == DeadIn(script, k)
  {
    var before := AnsweredIn(script, k);
    assert AnsweredIn(script, k + 1) == before + {k} && k !in before;
  }

  /** `timings.size()` and `dead_packets`, shared by the client fibers. */
  class Counters {
    var timings: nat
    var deadPackets: nat

    constructor ()
      ensures timings == 0 && deadPackets == 0
    {
      timings, deadPackets := 0, 0;
    }
  }

  /** The loop of one client fiber on its own. An iteration is complete when its send succeeded and it was
      given up for dead or got the data back twice; k of them are, and each added one to its counter. */
  method RunClient(counters: Counters, data: Bytes, perFiber: int, script: seq<Iteration>)
    returns (status: Status, ghost k: nat)
    requires perFiber <= |script|
    modifies counters
    ensures k <= |script| && (k <= perFiber || k == 0)
    ensures forall i :: 0 <= i < k ==>
              && script[i].sendRes > 0
              && (script[i].ret == -ESQE_TIMEOUT || script[i].ret == -EINTR ||
                  (script[i].ret > 0 && script[i].data == data + data))
    ensures counters.deadPackets == old(counters.deadPackets) +
              |set i | 0 <= i < k && (script[i].ret == -ESQE_TIMEOUT || script[i].ret == -EINTR)|
    ensures counters.timings == old(counters.timings) + |set i | 0 <= i < k && script[i].ret > 0|
    ensures status.Finished? <==> perFiber <= k
    ensures status.Thrown? <==>
              && k < perFiber
              && (script[k].sendRes <= 0 ||
                  (script[k].ret <= 0 && script[k].ret != -ESQE_TIMEOUT && script[k].ret != -EINTR))
    ensures status.Panicked? <==>
              k < perFiber && script[k].sendRes > 0 && script[k].ret > 0 && script[k].data != data + data
  {
    var expected := data + data;
    k := 0;
    var i := 0;
    assert DeadIn(script, 0) == {} && AnsweredIn(script, 0) == {};
    while i < perFiber
      invariant 0 <= i && k == i && (i <= perFiber || i == 0) && i <= |script|
      invariant forall h :: 0 <= h < i ==>
                  && script[h].sendRes > 0
                  && (script[h].ret == -ESQE_TIMEOUT || script[h].ret == -EINTR ||
                      (script[h].ret > 0 && script[h].data == expected))
      invariant counters.deadPackets == old(counters.deadPackets) + |DeadIn(script, i)|
      invariant counters.timings == old(counters.timings) + |AnsweredIn(script, i)|
      decreases perFiber - i
    {
      if script[i].sendRes <= 0 {
        return Thrown, k;
      }
      var ret := script[i].ret;
      if ret == -ESQE_TIMEOUT || ret == -EINTR {
        DeadNext(script, i);
        counters.deadPackets := counters.deadPackets + 1;
        i, k := i + 1, k + 1;
        continue;
      }
      if ret <= 0 {
        return Thrown, k;
      }
      if script[i].data != expected {
        return Panicked, k;
      }
      AnsweredNext(script, i);
      counters.timings := counters.timings + 1;
      i, k := i + 1, k + 1;
    }
    return Finished, k;
  }
}
