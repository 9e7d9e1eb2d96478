/** N client fibers (src/infallible_udp.cc) against M server fibers (src/srv2.cc) over a network that
    loses, delays and reorders datagrams but neither changes nor repeats them.

    A fiber's steps are what it does between two suspensions; a send takes effect at some point
    while its fiber is suspended in it. `lost`, and the counters inside `Client`, are history. */
module UdpProtocol {
  import opened Errno
  import opened UdpFibers

  datatype Phase = Sending | Awaiting | Done | ThrownSending | ThrownReceiving | Panicked
  datatype Client = Client(port: Addr, data: Bytes, phase: Phase, i: nat, sends: nat, accepted: nat, dead: nat)
  datatype ServerPhase = Receiving | Replying(len: nat, to: Addr) | Gone
  datatype Server = Server(buf: Bytes, phase: ServerPhase)

  datatype State = State(
    server: Addr, net: seq<Datagram>, clients: seq<Client>, servers: seq<Server>, serverUp: bool, perFiber: int,
    timings: nat, deadPackets: nat, received: nat, replied: nat,
    lost: multiset<Addr>)

  datatype Step =
    | ClientSend(c: nat)
    | ClientSendFails(c: nat, res: int)
    | ClientReceive(c: nat, k: nat)
    | ClientReceiveFails(c: nat, ret: int)
    | ServerReceive(j: nat, k: nat)
    | ServerReply(j: nat)
    | ServerReplyFails(j: nat)
    | Lose(k: nat)

  /** The phase at the head of the client's loop. */
  function LoopHead(perFiber: int, i: nat): Phase {
    if i < perFiber then Sending else Done
  }

  ghost predicate Init(s: State) {
    && s.net == [] && s.serverUp && s.timings == 0 && s.deadPackets == 0 && s.received == 0 && s.replied == 0
    && s.lost == multiset{}
    && (forall c :: 0 <= c < |s.clients| ==>
          var m := s.clients[c];
          m == Client(m.port, m.data, LoopHead(s.perFiber, 0), 0, 0, 0, 0) && m.port != s.server && m.data != [])
    && (forall c, d :: 0 <= c < d < |s.clients| ==> s.clients[c].port != s.clients[d].port)
    && (forall j :: 0 <= j < |s.servers| ==> |s.servers[j].buf| == RECV_BUF && s.servers[j].phase == Receiving)
  }

  predicate Enabled(s: State, step: Step) {
    match step
    case ClientSend(c) => c < |s.clients| && s.clients[c].phase == Sending
    case ClientSendFails(c, res) => c < |s.clients| && s.clients[c].phase == Sending && res <= 0
    case ClientReceive(c, k) =>
      c < |s.clients| && s.clients[c].phase == Awaiting && k < |s.net| && s.net[k].dst == s.clients[c].port
    case ClientReceiveFails(c, ret) => c < |s.clients| && s.clients[c].phase == Awaiting && ret <= 0
    case ServerReceive(j, k) =>
      s.serverUp && j < |s.servers| && s.servers[j].phase == Receiving && k < |s.net| && s.net[k].dst == s.server
    case ServerReply(j) => s.serverUp && j < |s.servers| && s.servers[j].phase.Replying?
    case ServerReplyFails(j) => s.serverUp && j < |s.servers| && s.servers[j].phase.Replying?
    case Lose(k) => k < |s.net|
  }

  function Without(net: seq<Datagram>, k: nat): seq<Datagram>
    requires k < |net|
  {
    net[..k] + net[k + 1..]
  }

  /** The client whose exchange a datagram belongs to. */
  function Owner(server: Addr, d: Datagram): Addr {
    if d.dst == server then d.src else d.dst
  }

  function Apply(s: State, step: Step): State
    requires Enabled(s, step)
  {
    match step
    case ClientSend(c) =>
      var m := s.clients[c];
      s.(net := s.net + [Datagram(m.port, s.server, m.data)],
         clients := s.clients[c := m.(phase := Awaiting, sends := m.sends + 1)])
    case ClientSendFails(c, _) => s.(clients := s.clients[c := s.clients[c].(phase := ThrownSending)])
    case ClientReceive(c, k) =>
      var data := Truncate(s.net[k].data);
      Received(s.(net := Without(s.net, k)), c, Judge(|data|, data, s.clients[c].data + s.clients[c].data), true)
    case ClientReceiveFails(c, ret) =>
      Received(s, c, Judge(ret, [], s.clients[c].data + s.clients[c].data), false)
    case ServerReceive(j, k) =>
      var data, buf := Truncate(s.net[k].data), s.servers[j].buf;
      var n := |data|;
      var t := s.(net := Without(s.net, k), received := s.received + 1);
      if !Fits(s.net[k].data) then t.(serverUp := false, lost := s.lost + multiset{s.net[k].src})
      else t.(servers := s.servers[j := Server(Doubled(Filled(buf, data), n), Replying(n, s.net[k].src))])
    case ServerReply(j) =>
      var sv := s.servers[j];
      s.(net := s.net + [Datagram(s.server, sv.phase.to, Prefix(sv.buf, 2 * sv.phase.len))],
         servers := s.servers[j := sv.(phase := Receiving)], replied := s.replied + 1)
    case ServerReplyFails(j) =>
      s.(servers := s.servers[j := s.servers[j].(phase := Gone)], lost := s.lost + multiset{s.servers[j].phase.to})
    case Lose(k) => s.(net := Without(s.net, k), lost := s.lost + multiset{Owner(s.server, s.net[k])})
  }

  function Prefix(buf: Bytes, n: nat): Bytes {
    if n <= |buf| then buf[..n] else buf
  }

  /** The kernel's write into a receive buffer. */
  function Filled(buf: Bytes, data: Bytes): Bytes {
    if |data| <= |buf| then data + buf[|data|..] else buf
  }

  /** The server's `memcpy`. */
  function Doubled(buf: Bytes, n: nat): Bytes {
    if 2 * n <= |buf| then buf[..n] + buf[..n] + buf[2 * n..] else buf
  }

  /** The rest of the client's iteration after its receive. */
  function Received(s: State, c: nat, verdict: Verdict, consumed: bool): State
    requires c < |s.clients|
  {
    var m := s.clients[c];
    var head := LoopHead(s.perFiber, m.i + 1);
    var lost := if consumed && !verdict.Accept? then s.lost + multiset{m.port} else s.lost;
    match verdict
    case Accept =>
      s.(clients := s.clients[c := m.(phase := head, i := m.i + 1, accepted := m.accepted + 1)],
         timings := s.timings + 1)
    case Dead =>
      s.(clients := s.clients[c := m.(phase := head, i := m.i + 1, dead := m.dead + 1)],
         deadPackets := s.deadPackets + 1,
         lost := lost)
    case Throw => s.(clients := s.clients[c := m.(phase := ThrownReceiving)], lost := lost)
    case BadResponse => s.(clients := s.clients[c := m.(phase := Phase.Panicked)], lost := lost)
  }

  ghost predicate IsRun(states: seq<State>, steps: seq<Step>) {
    && |states| == |steps| + 1
    && forall i :: 0 <= i < |steps| ==> Enabled(states[i], steps[i]) && states[i + 1] == Apply(states[i], steps[i])
  }

  // Every reply carries its client's data, doubled.

  ghost predicate ClientsOk(server: Addr, clients: seq<Client>) {
    && (forall c :: 0 <= c < |clients| ==>
          clients[c].port != server && clients[c].data != [] && clients[c].phase != Phase.Panicked)
    && (forall c, d :: 0 <= c < d < |clients| ==> clients[c].port != clients[d].port)
  }

  /** A request carries its sender's data; a reply is short and carries its receiver's, doubled. */
  ghost predicate DatagramOk(server: Addr, clients: seq<Client>, d: Datagram) {
    forall c :: 0 <= c < |clients| ==>
      && (d.dst == server && d.src == clients[c].port ==> d.data == clients[c].data)
      && (d.dst == clients[c].port ==> d.data == clients[c].data + clients[c].data && |d.data| < RECV_BUF)
  }

  /** A server fiber about to reply holds the doubled data of the client it replies to. */
  ghost predicate ServerOk(clients: seq<Client>, sv: Server) {
    && |sv.buf| == RECV_BUF
    && (sv.phase.Replying? ==>
          && 2 * sv.phase.len < RECV_BUF
          && forall c :: 0 <= c < |clients| && clients[c].port == sv.phase.to ==>
               sv.buf[..2 * sv.phase.len] == clients[c].data + clients[c].data)
  }

  ghost predicate EchoInv(s: State) {
    && ClientsOk(s.server, s.clients)
    && (forall d :: d in s.net ==> DatagramOk(s.server, s.clients, d))
    && (forall j :: 0 <= j < |s.servers| ==> ServerOk(s.clients, s.servers[j]))
  }

  /** Ports and data are fixed for good. */
  ghost predicate SameIdentities(before: seq<Client>, after: seq<Client>) {
    |before| == |after| &&
    forall c :: 0 <= c < |before| ==> after[c].port == before[c].port && after[c].data == before[c].data
  }

  lemma IdentitiesKeepOk(s: State, clients: seq<Client>)
    requires SameIdentities(s.clients, clients) && EchoInv(s)
    ensures forall d :: d in s.net ==> DatagramOk(s.server, clients, d)
    ensures forall j :: 0 <= j < |s.servers| ==> ServerOk(clients, s.servers[j])
  {
  }

  lemma WithoutIsSubset(net: seq<Datagram>, k: nat)
    requires k < |net|
    ensures forall d :: d in Without(net, k) ==> d in net
  {
  }

  lemma ReceiveEcho(s: State, c: nat, k: nat)
    requires EchoInv(s) && Enabled(s, ClientReceive(c, k))
    ensures var data := Truncate(s.net[k].data);
            Judge(|data|, data, s.clients[c].data + s.clients[c].data) == Accept
  {
    assert s.net[k] in s.net;
    assert DatagramOk(s.server, s.clients, s.net[k]);
  }

  lemma ServerDoubles(buf: Bytes, data: Bytes)
    requires |buf| == RECV_BUF && 2 * |data| < RECV_BUF
    ensures var b := Doubled(Filled(buf, data), |data|);
            |b| == RECV_BUF && b[..2 * |data|] == data + data
  {
  }

  lemma ServerReceiveEcho(s: State, j: nat, k: nat)
    requires EchoInv(s) && Enabled(s, ServerReceive(j, k))
    ensures EchoInv(Apply(s, ServerReceive(j, k)))
  {
    var t, d := Apply(s, ServerReceive(j, k)), s.net[k];
    WithoutIsSubset(s.net, k);
    assert d in s.net && DatagramOk(s.server, s.clients, d);
    if Fits(d.data) {
      FittingIsWhole(d.data);
      ServerDoubles(s.servers[j].buf, d.data);
      assert ServerOk(s.clients, t.servers[j]);
    }
  }

  lemma ServerReplyEcho(s: State, j: nat)
    requires EchoInv(s) && Enabled(s, ServerReply(j))
    ensures EchoInv(Apply(s, ServerReply(j)))
  {
    var t, sv := Apply(s, ServerReply(j)), s.servers[j];
    assert ServerOk(s.clients, sv);
    var d := Datagram(s.server, sv.phase.to, sv.buf[..2 * sv.phase.len]);
    assert DatagramOk(s.server, s.clients, d);
    assert t.net == s.net + [d];
  }

  lemma ClientReceiveEcho(s: State, c: nat, k: nat)
    requires EchoInv(s) && Enabled(s, ClientReceive(c, k))
    ensures EchoInv(Apply(s, ClientReceive(c, k)))
  {
    ReceiveEcho(s, c, k);
    WithoutIsSubset(s.net, k);
    IdentitiesKeepOk(s, Apply(s, ClientReceive(c, k)).clients);
  }

  lemma ClientSendEcho(s: State, c: nat)
    requires EchoInv(s) && Enabled(s, ClientSend(c))
    ensures EchoInv(Apply(s, ClientSend(c)))
  {
    var t := Apply(s, ClientSend(c));
    IdentitiesKeepOk(s, t.clients);
    assert DatagramOk(s.server, t.clients, Datagram(s.clients[c].port, s.server, s.clients[c].data));
  }

  lemma StepEcho(s: State, step: Step)
    requires EchoInv(s) && Enabled(s, step)
    ensures EchoInv(Apply(s, step))
  {
    match step
    case ClientSend(c) => ClientSendEcho(s, c);
    case ClientSendFails(c, res) => IdentitiesKeepOk(s, Apply(s, step).clients);
    case ClientReceive(c, k) => ClientReceiveEcho(s, c, k);
    case ClientReceiveFails(c, ret) => IdentitiesKeepOk(s, Apply(s, step).clients);
    case ServerReceive(j, k) => ServerReceiveEcho(s, j, k);
    case ServerReply(j) => ServerReplyEcho(s, j);
    case ServerReplyFails(j) =>
    case Lose(k) => WithoutIsSubset(s.net, k);
  }

  lemma {:induction false} RunEcho(states: seq<State>, steps: seq<Step>, n: nat)
    requires IsRun(states, steps) && Init(states[0]) && n <= |steps|
    ensures EchoInv(states[n])
  {
    if n > 0 {
      RunEcho(states, steps, n - 1);
      StepEcho(states[n - 1], steps[n - 1]);
    }
  }

  lemma StepIdentities(s: State, step: Step)
    requires Enabled(s, step)
    ensures SameIdentities(s.clients, Apply(s, step).clients)
    ensures Apply(s, step).server == s.server && Apply(s, step).perFiber == s.perFiber
  {
  }

  lemma {:induction false} IdentitiesFixed(states: seq<State>, steps: seq<Step>, n: nat)
    requires IsRun(states, steps) && n <= |steps|
    ensures SameIdentities(states[0].clients, states[n].clients) && states[n].server == states[0].server
    ensures states[n].perFiber == states[0].perFiber
  {
    if n > 0 {
      IdentitiesFixed(states, steps, n - 1);
      StepIdentities(states[n - 1], steps[n - 1]);
    }
  }

  /** Whatever is lost, delayed or reordered, every datagram on its way to a client is that client's
      data twice, and no client ever sees a bad response. */
  lemma EndToEndEcho(states: seq<State>, steps: seq<Step>, n: nat, c: nat, d: Datagram)
    requires IsRun(states, steps) && Init(states[0]) && n <= |steps| && c < |states[0].clients|
    ensures c < |states[n].clients| && states[n].clients[c].phase != Phase.Panicked
    ensures d in states[n].net && d.dst == states[0].clients[c].port ==>
              d.data == states[0].clients[c].data + states[0].clients[c].data
  {
    RunEcho(states, steps, n);
    IdentitiesFixed(states, steps, n);
  }

  // One client's iteration.

  /** The client's phase at the head of the iteration after this one. */
  ghost predicate GoesOn(s: State, m: Client, next: Client) {
    && next.i == m.i + 1
    && (next.phase == Sending <==> m.i + 1 < s.perFiber) && (next.phase == Done <==> s.perFiber <= m.i + 1)
  }

  /** Nothing else moved: the other clients, the servers, and the client's own name, data and sends. */
  ghost predicate OnlyClient(s: State, t: State, c: nat) {
    && c < |s.clients| && |t.clients| == |s.clients| && t.servers == s.servers && t.server == s.server
    && t.serverUp == s.serverUp && t.perFiber == s.perFiber && t.received == s.received && t.replied == s.replied
    && (forall d :: 0 <= d < |s.clients| && d != c ==> t.clients[d] == s.clients[d])
    && t.clients[c].port == s.clients[c].port && t.clients[c].data == s.clients[c].data
  }

  /** A receive without a datagram: the timeout code and EINTR count one dead packet, in the client and in
      the shared counter, and the next iteration begins; anything else ends the fiber uncounted. */
  lemma ReceiveFailsExactly(s: State, c: nat, ret: int)
    requires c < |s.clients| && s.clients[c].phase == Awaiting && ret <= 0
    ensures Enabled(s, ClientReceiveFails(c, ret))
    ensures var t := Apply(s, ClientReceiveFails(c, ret));
            && OnlyClient(s, t, c) && t.net == s.net && t.timings == s.timings
            && t.clients[c].accepted == s.clients[c].accepted && t.clients[c].sends == s.clients[c].sends
            && if ret == -ESQE_TIMEOUT || ret == -EINTR then
                 && GoesOn(s, s.clients[c], t.clients[c])
                 && t.clients[c].dead == s.clients[c].dead + 1 && t.deadPackets == s.deadPackets + 1
               else
                 && t.clients[c] == s.clients[c].(phase := ThrownReceiving) && t.deadPackets == s.deadPackets
  {
  }

  /** A receive with a datagram, of which as much as the buffer holds is seen: the client's data twice is
      recorded, in the client and in the shared counter, and the next iteration begins; any other bytes are
      a panic, and none at all an error. */
  lemma ReceiveExactly(s: State, c: nat, k: nat)
    requires c < |s.clients| && s.clients[c].phase == Awaiting && k < |s.net| && s.net[k].dst == s.clients[c].port
    ensures Enabled(s, ClientReceive(c, k))
    ensures var t := Apply(s, ClientReceive(c, k));
            var data := if |s.net[k].data| <= RECV_BUF then s.net[k].data else s.net[k].data[..RECV_BUF];
            && OnlyClient(s, t, c) && t.net == s.net[..k] + s.net[k + 1..] && t.deadPackets == s.deadPackets
            && t.clients[c].dead == s.clients[c].dead && t.clients[c].sends == s.clients[c].sends
            && if data != [] && data == s.clients[c].data + s.clients[c].data then
                 && GoesOn(s, s.clients[c], t.clients[c])
                 && t.clients[c].accepted == s.clients[c].accepted + 1 && t.timings == s.timings + 1
               else
                 && t.timings == s.timings
                 && t.clients[c] == s.clients[c].(phase := if data == [] then ThrownReceiving else Phase.Panicked)
  {
  }

  /** A send puts one request on its way and opens the exchange, or ends the fiber with nothing sent. */
  lemma SendExactly(s: State, c: nat, res: int)
    requires c < |s.clients| && s.clients[c].phase == Sending && res <= 0
    ensures Enabled(s, ClientSend(c)) && Enabled(s, ClientSendFails(c, res))
    ensures var t := Apply(s, ClientSend(c));
            && OnlyClient(s, t, c) && t.net == s.net + [Datagram(s.clients[c].port, s.server, s.clients[c].data)]
            && t.clients[c] == s.clients[c].(phase := Awaiting, sends := s.clients[c].sends + 1)
            && t.timings == s.timings && t.deadPackets == s.deadPackets
    ensures Apply(s, ClientSendFails(c, res)) == s.(clients := s.clients[c := s.clients[c].(phase := ThrownSending)])
  {
  }

  /** Any datagram may be lost at any time, and any reply of a server that is up may fail to be sent, which
      ends that server fiber; nothing else changes but the record of what was lost. */
  lemma LossExactly(s: State, k: nat, j: nat)
    ensures k < |s.net| ==>
              && Enabled(s, Lose(k))
              && var t := Apply(s, Lose(k)); t == s.(net := s.net[..k] + s.net[k + 1..], lost := t.lost)
    ensures s.serverUp && j < |s.servers| && s.servers[j].phase.Replying? ==>
              && Enabled(s, ServerReplyFails(j))
              && var t := Apply(s, ServerReplyFails(j));
                 t == s.(servers := s.servers[j := Server(s.servers[j].buf, Gone)], lost := t.lost)
  {
  }

  /** An exchange that nothing disturbs succeeds: from any state of a run in which client c is about to
      send data that fits and server fiber j is free, four steps record one more reply and leave no
      datagram behind. */
  lemma UndisturbedExchange(s: State, c: nat, j: nat) returns (t: State)
    requires EchoInv(s) && s.serverUp && c < |s.clients| && s.clients[c].phase == Sending
    requires 2 * |s.clients[c].data| < RECV_BUF && j < |s.servers| && s.servers[j].phase == Receiving
    ensures var n := |s.net|;
            && Enabled(s, ClientSend(c))
            && var s1 := Apply(s, ClientSend(c));
               && Enabled(s1, ServerReceive(j, n))
               && var s2 := Apply(s1, ServerReceive(j, n));
                  && Enabled(s2, ServerReply(j))
                  && var s3 := Apply(s2, ServerReply(j));
                     Enabled(s3, ClientReceive(c, n)) && t == Apply(s3, ClientReceive(c, n))
    ensures t.net == s.net && t.timings == s.timings + 1 && t.deadPackets == s.deadPackets
    ensures t.received == s.received + 1 && t.replied == s.replied + 1 && t.serverUp
    ensures c < |t.clients| && GoesOn(s, s.clients[c], t.clients[c])
    ensures t.clients[c].accepted == s.clients[c].accepted + 1 && t.clients[c].sends == s.clients[c].sends + 1
  {
    var n, m := |s.net|, s.clients[c];
    SendExactly(s, c, 0);
    var s1 := Apply(s, ClientSend(c));
    var s2 := Apply(s1, ServerReceive(j, n));
    assert s1.net[n] == Datagram(m.port, s.server, m.data) && Fits(m.data);
    FittingIsWhole(m.data);
    ServerDoubles(s.servers[j].buf, m.data);
    assert s2.net == s.net && s2.clients == s1.clients && s2.servers[j].phase == Replying(|m.data|, m.port);
    var s3 := Apply(s2, ServerReply(j));
    assert s3.net == s.net + [Datagram(s.server, m.port, m.data + m.data)] && s3.clients == s1.clients;
    ReceiveExactly(s3, c, n);
    t := Apply(s3, ClientReceive(c, n));
  }

  // The server between a receive and its reply.

  predicate ByServer(step: Step, j: nat) {
    match step
    case ServerReceive(h, _) => h == j
    case ServerReply(h) => h == j
    case ServerReplyFails(h) => h == j
    case _ => false
  }

  lemma OthersLeaveServer(s: State, step: Step, j: nat)
    requires Enabled(s, step) && j < |s.servers| && !ByServer(step, j)
    ensures |Apply(s, step).servers| == |s.servers| && Apply(s, step).servers[j] == s.servers[j]
    ensures Apply(s, step).server == s.server
  {
  }

  lemma {:induction false} ServerUndisturbed(states: seq<State>, steps: seq<Step>, n: nat, m: nat, j: nat)
    requires IsRun(states, steps) && n <= m <= |steps| && j < |states[n].servers|
    requires forall i :: n <= i < m ==> !ByServer(steps[i], j)
    ensures j < |states[m].servers| && states[m].servers[j] == states[n].servers[j]
    ensures states[m].server == states[n].server
    decreases m - n
  {
    if n < m {
      ServerUndisturbed(states, steps, n, m - 1, j);
      OthersLeaveServer(states[m - 1], steps[m - 1], j);
    }
  }

  lemma {:induction false} UpWasUp(states: seq<State>, steps: seq<Step>, n: nat, m: nat)
    requires IsRun(states, steps) && n <= m <= |steps| && states[m].serverUp
    ensures states[n].serverUp
    decreases m - n
  {
    if n < m {
      assert states[m - 1].serverUp;
      UpWasUp(states, steps, n, m - 1);
    }
  }

  /** The reply to a received datagram is its bytes twice, to its sender, whatever everybody else does
      in between and whatever the buffer held before. */
  lemma ReplyIsEcho(states: seq<State>, steps: seq<Step>, n: nat, m: nat, j: nat, k: nat)
    requires IsRun(states, steps) && Init(states[0]) && n < m < |steps|
    requires steps[n] == ServerReceive(j, k) && steps[m] == ServerReply(j)
    requires forall i :: n < i < m ==> !ByServer(steps[i], j)
    ensures k < |states[n].net| && states[n].net[k].dst == states[m].server
    ensures states[m + 1].net == states[m].net + [Echo(states[n].net[k])]
  {
    var s, d := states[n], states[n].net[k];
    RunEcho(states, steps, n);
    assert ServerOk(s.clients, s.servers[j]);
    UpWasUp(states, steps, n + 1, m);
    FittingIsWhole(d.data);
    ServerDoubles(s.servers[j].buf, d.data);
    ServerUndisturbed(states, steps, n + 1, m, j);
  }

  /** The step receives a message that is too long to double. */
  predicate TooLong(s: State, step: Step) {
    step.ServerReceive? && Enabled(s, step) && !Fits(s.net[step.k].data)
  }

  lemma StepServerUp(s: State, step: Step)
    requires Enabled(s, step)
    ensures Apply(s, step).serverUp <==> s.serverUp && !TooLong(s, step)
  {
  }

  /** The server is down exactly if some message received so far was too long to double. */
  lemma {:induction false} ServerFailsExactly(states: seq<State>, steps: seq<Step>, n: nat)
    requires IsRun(states, steps) && Init(states[0]) && n <= |steps|
    ensures !states[n].serverUp <==> exists i :: 0 <= i < n && TooLong(states[i], steps[i])
  {
    if n > 0 {
      ServerFailsExactly(states, steps, n - 1);
      StepServerUp(states[n - 1], steps[n - 1]);
    }
  }

  function Ports(clients: seq<Client>): set<Addr> {
    set c | 0 <= c < |clients| :: clients[c].port
  }

  /** Requests come from clients, and replies are on their way to clients. */
  ghost predicate OnlyClients(s: State) {
    && (forall d :: d in s.net ==> ToOrFrom(s.server, Ports(s.clients), d))
    && (forall j :: 0 <= j < |s.servers| && s.servers[j].phase.Replying? ==> s.servers[j].phase.to in Ports(s.clients))
  }

  predicate ToOrFrom(server: Addr, ports: set<Addr>, d: Datagram) {
    (d.dst == server && d.src in ports) || d.dst in ports
  }

  lemma SamePorts(before: seq<Client>, after: seq<Client>)
    requires SameIdentities(before, after)
    ensures Ports(after) == Ports(before)
  {
    forall c | 0 <= c < |before|
      ensures before[c].port in Ports(after) && after[c].port in Ports(before)
    {
      assert after[c].port == before[c].port;
    }
  }

  lemma ClientOnlyClients(s: State, c: nat)
    requires OnlyClients(s) && Enabled(s, ClientSend(c))
    ensures OnlyClients(Apply(s, ClientSend(c)))
  {
    var t := Apply(s, ClientSend(c));
    StepIdentities(s, ClientSend(c));
    SamePorts(s.clients, t.clients);
    assert ToOrFrom(s.server, Ports(s.clients), Datagram(s.clients[c].port, s.server, s.clients[c].data));
  }

  lemma ServerOnlyClients(s: State, step: Step)
    requires EchoInv(s) && OnlyClients(s) && Enabled(s, step) && (step.ServerReceive? || step.ServerReply?)
    ensures OnlyClients(Apply(s, step))
  {
    var t := Apply(s, step);
    match step
    case ServerReceive(j, k) =>
      WithoutIsSubset(s.net, k);
      assert s.net[k] in s.net && s.server !in Ports(s.clients) && t.clients == s.clients;
    case ServerReply(j) =>
      assert t.clients == s.clients && ToOrFrom(s.server, Ports(s.clients), t.net[|s.net|]);
      assert forall d :: d in t.net ==> d in s.net || d == t.net[|s.net|];
  }

  lemma StepOnlyClients(s: State, step: Step)
    requires EchoInv(s) && OnlyClients(s) && Enabled(s, step)
    ensures OnlyClients(Apply(s, step))
  {
    match step
    case ClientSend(c) => ClientOnlyClients(s, c);
    case ServerReceive(j, k) => ServerOnlyClients(s, step);
    case ServerReply(j) => ServerOnlyClients(s, step);
    case ClientReceive(c, k) => WithoutIsSubset(s.net, k); FewerOnlyClients(s, step);
    case Lose(k) => WithoutIsSubset(s.net, k); FewerOnlyClients(s, step);
    case _ => FewerOnlyClients(s, step);
  }

  /** Every other step adds no datagram and starts no reply. */
  lemma FewerOnlyClients(s: State, step: Step)
    requires OnlyClients(s) && Enabled(s, step) && forall d :: d in Apply(s, step).net ==> d in s.net
    requires !step.ServerReceive?
    ensures OnlyClients(Apply(s, step))
  {
    StepIdentities(s, step);
    SamePorts(s.clients, Apply(s, step).clients);
  }

  lemma {:induction false} RunOnlyClients(states: seq<State>, steps: seq<Step>, n: nat)
    requires IsRun(states, steps) && Init(states[0]) && n <= |steps|
    ensures EchoInv(states[n]) && OnlyClients(states[n])
  {
    RunEcho(states, steps, n);
    if n > 0 {
      RunOnlyClients(states, steps, n - 1);
      StepOnlyClients(states[n - 1], steps[n - 1]);
    }
  }

  lemma RequestFits(s: State, step: Step)
    requires EchoInv(s) && OnlyClients(s) && Enabled(s, step)
    requires forall c :: 0 <= c < |s.clients| ==> 2 * |s.clients[c].data| < RECV_BUF
    ensures !TooLong(s, step)
  {
    if step.ServerReceive? {
      var d := s.net[step.k];
      assert d in s.net && s.server !in Ports(s.clients);
      assert DatagramOk(s.server, s.clients, d);
      var c :| 0 <= c < |s.clients| && s.clients[c].port == d.src;
      assert d.data == s.clients[c].data;
    }
  }

  /** It never goes down while every client's data, doubled, fits into the buffer. */
  lemma ShortDataKeepsServerUp(states: seq<State>, steps: seq<Step>, n: nat)
    requires IsRun(states, steps) && Init(states[0]) && n <= |steps|
    requires forall c :: 0 <= c < |states[0].clients| ==> 2 * |states[0].clients[c].data| < RECV_BUF
    ensures states[n].serverUp
  {
    ServerFailsExactly(states, steps, n);
    forall i | 0 <= i < n
      ensures !TooLong(states[i], steps[i])
    {
      RunOnlyClients(states, steps, i);
      IdentitiesFixed(states, steps, i);
      RequestFits(states[i], steps[i]);
    }
  }
}
