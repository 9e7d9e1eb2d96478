/** Conservation in the UDP protocol: where each request ends up, how many can still be on their way,
    and what the client's shared counters add up to. */
module UdpAccounting {
  import opened UdpFibers
  import opened UdpProtocol

  function Sum(xs: seq<nat>): nat {
    if xs == [] then 0 else Sum(xs[..|xs| - 1]) + xs[|xs| - 1]
  }

  lemma {:induction false} SumConcat(xs: seq<nat>, ys: seq<nat>)
    ensures Sum(xs + ys) == Sum(xs) + Sum(ys)
    decreases |ys|
  {
    if ys == [] {
      assert xs + ys == xs;
    } else {
      SumConcat(xs, ys[..|ys| - 1]);
      assert (xs + ys)[..|xs + ys| - 1] == xs + ys[..|ys| - 1];
    }
  }

  lemma SumSplit(xs: seq<nat>, k: nat)
    requires k < |xs|
    ensures Sum(xs) == Sum(xs[..k]) + xs[k] + Sum(xs[k + 1..])
  {
    assert xs == (xs[..k] + [xs[k]]) + xs[k + 1..];
    assert (xs[..k] + [xs[k]])[..k] == xs[..k];
    SumConcat(xs[..k] + [xs[k]], xs[k + 1..]);
  }

  lemma SumUpdate(xs: seq<nat>, ys: seq<nat>, k: nat)
    requires |xs| == |ys| && k < |xs| && ys == xs[k := ys[k]]
    ensures Sum(ys) + xs[k] == Sum(xs) + ys[k]
  {
    SumSplit(xs, k);
    SumSplit(ys, k);
    assert ys[..k] == xs[..k] && ys[k + 1..] == xs[k + 1..];
  }

  lemma SumWithout(xs: seq<nat>, k: nat)
    requires k < |xs|
    ensures Sum(xs) == Sum(xs[..k] + xs[k + 1..]) + xs[k]
  {
    SumSplit(xs, k);
    SumConcat(xs[..k], xs[k + 1..]);
  }

  lemma {:induction false} SumConstant(xs: seq<nat>, v: nat)
    requires forall i :: 0 <= i < |xs| ==> xs[i] == v
    ensures Sum(xs) == |xs| * v
  {
    if xs != [] {
      SumConstant(xs[..|xs| - 1], v);
    }
  }

  // Requests and replies on their way.

  function Mark(b: bool): nat {
    if b then 1 else 0
  }

  function NetMarks(server: Addr, net: seq<Datagram>, a: Addr): (xs: seq<nat>)
    ensures |xs| == |net| && forall i :: 0 <= i < |net| ==> xs[i] == Mark(Owner(server, net[i]) == a)
  {
    seq(|net|, i requires 0 <= i < |net| => Mark(Owner(server, net[i]) == a))
  }

  function Holds(sv: Server, a: Addr): bool {
    sv.phase.Replying? && sv.phase.to == a
  }

  function HeldMarks(servers: seq<Server>, a: Addr): (xs: seq<nat>)
    ensures |xs| == |servers| && forall j :: 0 <= j < |servers| ==> xs[j] == Mark(Holds(servers[j], a))
  {
    seq(|servers|, j requires 0 <= j < |servers| => Mark(Holds(servers[j], a)))
  }

  /** The exchanges of the client at port a that are still somewhere in the system. */
  function Travelling(s: State, a: Addr): nat {
    Sum(NetMarks(s.server, s.net, a)) + Sum(HeldMarks(s.servers, a))
  }

  lemma NetAppend(server: Addr, net: seq<Datagram>, d: Datagram, a: Addr)
    ensures Sum(NetMarks(server, net + [d], a)) == Sum(NetMarks(server, net, a)) + Mark(Owner(server, d) == a)
  {
    assert NetMarks(server, net + [d], a)[..|net|] == NetMarks(server, net, a);
  }

  lemma NetWithout(server: Addr, net: seq<Datagram>, k: nat, a: Addr)
    requires k < |net|
    ensures Sum(NetMarks(server, net, a)) ==
            Sum(NetMarks(server, Without(net, k), a)) + Mark(Owner(server, net[k]) == a)
  {
    var xs := NetMarks(server, net, a);
    assert NetMarks(server, Without(net, k), a) == xs[..k] + xs[k + 1..];
    SumWithout(xs, k);
  }

  lemma HeldUpdate(servers: seq<Server>, j: nat, sv: Server, a: Addr)
    requires j < |servers|
    ensures Sum(HeldMarks(servers[j := sv], a)) + Mark(Holds(servers[j], a)) ==
            Sum(HeldMarks(servers, a)) + Mark(Holds(sv, a))
  {
    SumUpdate(HeldMarks(servers, a), HeldMarks(servers[j := sv], a), j);
  }

  // Each step moves, creates or removes at most one exchange.

  lemma SendTravels(s: State, c: nat, a: Addr)
    requires Enabled(s, ClientSend(c)) && a != s.server
    ensures Travelling(Apply(s, ClientSend(c)), a) == Travelling(s, a) + Mark(s.clients[c].port == a)
  {
    NetAppend(s.server, s.net, Datagram(s.clients[c].port, s.server, s.clients[c].data), a);
  }

  lemma RemoveTravels(s: State, k: nat, a: Addr)
    requires k < |s.net|
    ensures Travelling(s, a) == Travelling(s.(net := Without(s.net, k)), a) + Mark(Owner(s.server, s.net[k]) == a)
  {
    NetWithout(s.server, s.net, k, a);
  }

  lemma TakeTravels(s: State, j: nat, k: nat, a: Addr)
    requires Enabled(s, ServerReceive(j, k))
    ensures var t := Apply(s, ServerReceive(j, k));
            Travelling(t, a) + t.lost[a] == Travelling(s, a) + s.lost[a]
  {
    RemoveTravels(s, k, a);
    HeldUpdate(s.servers, j, Apply(s, ServerReceive(j, k)).servers[j], a);
  }

  lemma ReplyTravels(s: State, j: nat, a: Addr)
    requires Enabled(s, ServerReply(j)) && a != s.server
    ensures Travelling(Apply(s, ServerReply(j)), a) == Travelling(s, a)
  {
    var sv := s.servers[j];
    NetAppend(s.server, s.net, Datagram(s.server, sv.phase.to, Prefix(sv.buf, 2 * sv.phase.len)), a);
    HeldUpdate(s.servers, j, sv.(phase := Receiving), a);
  }

  lemma ReplyFailsTravels(s: State, j: nat, a: Addr)
    requires Enabled(s, ServerReplyFails(j))
    ensures var t := Apply(s, ServerReplyFails(j));
            Travelling(t, a) + t.lost[a] == Travelling(s, a) + s.lost[a]
  {
    HeldUpdate(s.servers, j, s.servers[j].(phase := Gone), a);
  }

  /** A client's sends are accounted for: still travelling, accepted as a reply, or lost. */
  ghost predicate Conserved(s: State, c: nat)
    requires c < |s.clients|
  {
    var m := s.clients[c];
    m.port != s.server && m.sends == Travelling(s, m.port) + m.accepted + s.lost[m.port]
  }

  lemma ReceivedConserved(s: State, k: nat, c: nat, d: nat)
    requires EchoInv(s) && Enabled(s, ClientReceive(c, k)) && d < |s.clients| && Conserved(s, d)
    ensures Conserved(Apply(s, ClientReceive(c, k)), d)
  {
    ReceiveEcho(s, c, k);
    RemoveTravels(s, k, s.clients[d].port);
    var t := Apply(s, ClientReceive(c, k));
    assert Travelling(t, s.clients[d].port) == Travelling(s.(net := Without(s.net, k)), s.clients[d].port);
  }

  lemma SentConserved(s: State, c: nat, d: nat)
    requires ClientsOk(s.server, s.clients) && Enabled(s, ClientSend(c)) && d < |s.clients| && Conserved(s, d)
    ensures Conserved(Apply(s, ClientSend(c)), d)
  {
    SendTravels(s, c, s.clients[d].port);
  }

  /** Steps that leave the clients alone. */
  lemma ElsewhereConserved(s: State, step: Step, d: nat)
    requires Enabled(s, step) && d < |s.clients| && Conserved(s, d)
    requires step.ServerReceive? || step.ServerReply? || step.ServerReplyFails? || step.Lose?
    ensures Apply(s, step).clients == s.clients && Conserved(Apply(s, step), d)
  {
    var a := s.clients[d].port;
    match step
    case ServerReceive(j, k) => TakeTravels(s, j, k, a);
    case ServerReply(j) => ReplyTravels(s, j, a);
    case ServerReplyFails(j) => ReplyFailsTravels(s, j, a);
    case Lose(k) => RemoveTravels(s, k, a);
  }

  /** Steps that only move a client along. */
  lemma FailureConserved(s: State, step: Step, d: nat)
    requires Enabled(s, step) && d < |s.clients| && Conserved(s, d)
    requires step.ClientSendFails? || step.ClientReceiveFails?
    ensures d < |Apply(s, step).clients| && Conserved(Apply(s, step), d)
  {
    var a := s.clients[d].port;
    assert Travelling(Apply(s, step), a) == Travelling(s, a);
  }

  lemma StepConserved(s: State, step: Step, d: nat)
    requires EchoInv(s) && Enabled(s, step) && d < |s.clients| && Conserved(s, d)
    ensures d < |Apply(s, step).clients| && Conserved(Apply(s, step), d)
  {
    StepIdentities(s, step);
    match step
    case ClientSend(c) => SentConserved(s, c, d);
    case ClientReceive(c, k) => ReceivedConserved(s, k, c, d);
    case ClientSendFails(c, res) => FailureConserved(s, step, d);
    case ClientReceiveFails(c, ret) => FailureConserved(s, step, d);
    case _ => ElsewhereConserved(s, step, d);
  }

  // What a client's own counters say.

  ghost predicate Ledger(m: Client, perFiber: int) {
    && m.i == m.accepted + m.dead
    && m.sends == m.i + Mark(!(m.phase.Sending? || m.phase.Done? || m.phase.ThrownSending?))
    && (m.phase.Done? ==> m.i == if perFiber > 0 then perFiber else 0)
    && (!m.phase.Done? ==> m.i < perFiber)
  }

  lemma StepLedger(s: State, step: Step, d: nat)
    requires Enabled(s, step) && d < |s.clients| && Ledger(s.clients[d], s.perFiber)
    ensures d < |Apply(s, step).clients| && Ledger(Apply(s, step).clients[d], s.perFiber)
    ensures Apply(s, step).perFiber == s.perFiber
  {
  }

  lemma {:induction false} RunLedgers(states: seq<State>, steps: seq<Step>, n: nat, d: nat)
    requires IsRun(states, steps) && Init(states[0]) && n <= |steps| && d < |states[0].clients|
    ensures d < |states[n].clients| && Conserved(states[n], d) && Ledger(states[n].clients[d], states[n].perFiber)
  {
    RunEcho(states, steps, n);
    if n == 0 {
      var s := states[0];
      SumConstant(HeldMarks(s.servers, s.clients[d].port), 0);
    } else {
      RunLedgers(states, steps, n - 1, d);
      RunEcho(states, steps, n - 1);
      StepConserved(states[n - 1], steps[n - 1], d);
      StepLedger(states[n - 1], steps[n - 1], d);
    }
  }

  /** A client's requests and replies anywhere in the system number at most its dead packets, plus one
      while an exchange is open; accepted replies never exceed sends, even when a late reply to an
      earlier request is taken for the current one. */
  lemma Backlog(states: seq<State>, steps: seq<Step>, n: nat, d: nat)
    requires IsRun(states, steps) && Init(states[0]) && n <= |steps| && d < |states[0].clients|
    ensures d < |states[n].clients|
    ensures var m := states[n].clients[d];
            && Travelling(states[n], m.port) <=
                 m.dead + Mark(!(m.phase.Sending? || m.phase.Done? || m.phase.ThrownSending?))
            && m.accepted + Travelling(states[n], m.port) + states[n].lost[m.port] == m.sends
            && m.accepted <= m.sends
  {
    RunLedgers(states, steps, n, d);
  }

  // The shared counters.

  function Accepted(clients: seq<Client>): (xs: seq<nat>)
    ensures |xs| == |clients| && forall c :: 0 <= c < |clients| ==> xs[c] == clients[c].accepted
  {
    seq(|clients|, c requires 0 <= c < |clients| => clients[c].accepted)
  }

  function DeadOf(clients: seq<Client>): (xs: seq<nat>)
    ensures |xs| == |clients| && forall c :: 0 <= c < |clients| ==> xs[c] == clients[c].dead
  {
    seq(|clients|, c requires 0 <= c < |clients| => clients[c].dead)
  }

  function Iterations(clients: seq<Client>): (xs: seq<nat>)
    ensures |xs| == |clients| && forall c :: 0 <= c < |clients| ==> xs[c] == clients[c].i
  {
    seq(|clients|, c requires 0 <= c < |clients| => clients[c].i)
  }

  /** Each shared counter is the sum of what the fibers put into it. */
  ghost predicate CountersAddUp(s: State) {
    s.timings == Sum(Accepted(s.clients)) && s.deadPackets == Sum(DeadOf(s.clients))
  }

  lemma ClientUpdate(clients: seq<Client>, c: nat, m: Client)
    requires c < |clients|
    ensures Sum(Accepted(clients[c := m])) + clients[c].accepted == Sum(Accepted(clients)) + m.accepted
    ensures Sum(DeadOf(clients[c := m])) + clients[c].dead == Sum(DeadOf(clients)) + m.dead
  {
    SumUpdate(Accepted(clients), Accepted(clients[c := m]), c);
    SumUpdate(DeadOf(clients), DeadOf(clients[c := m]), c);
  }

  lemma ReceivedAddsUp(s: State, c: nat, verdict: Verdict, consumed: bool)
    requires CountersAddUp(s) && c < |s.clients|
    ensures CountersAddUp(Received(s, c, verdict, consumed))
  {
    ClientUpdate(s.clients, c, Received(s, c, verdict, consumed).clients[c]);
  }

  lemma StepAddsUp(s: State, step: Step)
    requires CountersAddUp(s) && Enabled(s, step)
    ensures CountersAddUp(Apply(s, step))
  {
    match step
    case ClientSend(c) => ClientUpdate(s.clients, c, Apply(s, step).clients[c]);
    case ClientSendFails(c, res) => ClientUpdate(s.clients, c, Apply(s, step).clients[c]);
    case ClientReceive(c, k) =>
      var data := Truncate(s.net[k].data);
      ReceivedAddsUp(s.(net := Without(s.net, k)), c, Judge(|data|, data, s.clients[c].data + s.clients[c].data), true);
    case ClientReceiveFails(c, ret) =>
      ReceivedAddsUp(s, c, Judge(ret, [], s.clients[c].data + s.clients[c].data), false);
    case _ =>
  }

  lemma {:induction false} RunAddsUp(states: seq<State>, steps: seq<Step>, n: nat)
    requires IsRun(states, steps) && Init(states[0]) && n <= |steps|
    ensures CountersAddUp(states[n])
  {
    if n == 0 {
      SumConstant(Accepted(states[0].clients), 0);
      SumConstant(DeadOf(states[0].clients), 0);
    } else {
      RunAddsUp(states, steps, n - 1);
      StepAddsUp(states[n - 1], steps[n - 1]);
    }
  }

  lemma {:induction false} SumOfBoth(xs: seq<nat>, ys: seq<nat>, zs: seq<nat>)
    requires |xs| == |ys| == |zs| && forall i :: 0 <= i < |xs| ==> zs[i] == xs[i] + ys[i]
    ensures Sum(zs) == Sum(xs) + Sum(ys)
  {
    if xs != [] {
      var n := |xs| - 1;
      SumOfBoth(xs[..n], ys[..n], zs[..n]);
    }
  }

  /** `count / fibers` as C++ divides. */
  function TruncDiv(count: int, fibers: int): int
    requires fibers > 0
  {
    if count >= 0 then count / fibers else -((-count) / fibers)
  }

  lemma TruncDivBound(count: int, fibers: int)
    requires fibers > 0
    ensures count >= 0 ==> 0 <= fibers * TruncDiv(count, fibers) <= count
    ensures count < 0 ==> TruncDiv(count, fibers) <= 0
  {
  }

  /** When all client fibers have joined and none threw, recorded timings and dead packets together
      are the iterations asked for, whatever the interleaving; never more than `count`. */
  lemma ClientAccounting(states: seq<State>, steps: seq<Step>, n: nat, count: int)
    requires IsRun(states, steps) && Init(states[0]) && n <= |steps|
    requires |states[0].clients| > 0 && states[0].perFiber == TruncDiv(count, |states[0].clients|)
    requires forall c :: 0 <= c < |states[n].clients| ==> states[n].clients[c].phase == Done
    ensures states[n].timings + states[n].deadPackets ==
            if count >= 0 then |states[0].clients| * (count / |states[0].clients|) else 0
    ensures count >= 0 ==> states[n].timings + states[n].deadPackets <= count
  {
    RunAddsUp(states, steps, n);
    IdentitiesFixed(states, steps, n);
    var s := states[n];
    var per := if states[n].perFiber > 0 then states[n].perFiber else 0;
    forall c | 0 <= c < |s.clients|
      ensures s.clients[c].accepted + s.clients[c].dead == s.clients[c].i == per
    {
      RunLedgers(states, steps, n, c);
    }
    SumOfBoth(Accepted(s.clients), DeadOf(s.clients), Iterations(s.clients));
    SumConstant(Iterations(s.clients), per);
    TruncDivBound(count, |states[0].clients|);
  }

  // The server's counts.

  function ReplyingMarks(servers: seq<Server>): (xs: seq<nat>)
    ensures |xs| == |servers| && forall j :: 0 <= j < |servers| ==> xs[j] == Mark(!servers[j].phase.Receiving?)
  {
    seq(|servers|, j requires 0 <= j < |servers| => Mark(!servers[j].phase.Receiving?))
  }

  /** Requests received are replied to, held by a fiber that is replying or failed to, or were too
      long and took the server down. */
  ghost predicate RepliesAddUp(s: State) {
    s.received == s.replied + Sum(ReplyingMarks(s.servers)) + Mark(!s.serverUp)
  }

  lemma ReplyingUpdate(servers: seq<Server>, j: nat, sv: Server)
    requires j < |servers|
    ensures Sum(ReplyingMarks(servers[j := sv])) + Mark(!servers[j].phase.Receiving?) ==
            Sum(ReplyingMarks(servers)) + Mark(!sv.phase.Receiving?)
  {
    SumUpdate(ReplyingMarks(servers), ReplyingMarks(servers[j := sv]), j);
  }

  lemma ReceiveAddsUp(s: State, j: nat, k: nat)
    requires RepliesAddUp(s) && Enabled(s, ServerReceive(j, k))
    ensures RepliesAddUp(Apply(s, ServerReceive(j, k)))
  {
    var t := Apply(s, ServerReceive(j, k));
    if Fits(s.net[k].data) {
      var sv := t.servers[j];
      assert t == s.(net := t.net, received := s.received + 1, servers := s.servers[j := sv]);
      ReplyingUpdate(s.servers, j, sv);
    } else {
      assert t.servers == s.servers && t.received == s.received + 1 && !t.serverUp;
    }
  }

  lemma ReplyAddsUp(s: State, step: Step, j: nat)
    requires RepliesAddUp(s) && Enabled(s, step) && (step == ServerReply(j) || step == ServerReplyFails(j))
    ensures RepliesAddUp(Apply(s, step))
  {
    var t := Apply(s, step);
    var sv := t.servers[j];
    assert t.servers == s.servers[j := sv] && t.serverUp == s.serverUp && t.received == s.received;
    ReplyingUpdate(s.servers, j, sv);
  }

  lemma StepRepliesAddUp(s: State, step: Step)
    requires RepliesAddUp(s) && Enabled(s, step)
    ensures RepliesAddUp(Apply(s, step))
  {
    match step
    case ServerReceive(j, k) => ReceiveAddsUp(s, j, k);
    case ServerReply(j) => ReplyAddsUp(s, step, j);
    case ServerReplyFails(j) => ReplyAddsUp(s, step, j);
    case _ => assert Apply(s, step).servers == s.servers && Apply(s, step).received == s.received;
  }

  /** Replies sent never exceed requests received. */
  lemma {:induction false} RepliesBounded(states: seq<State>, steps: seq<Step>, n: nat)
    requires IsRun(states, steps) && Init(states[0]) && n <= |steps|
    ensures RepliesAddUp(states[n]) && states[n].replied <= states[n].received
  {
    if n == 0 {
      SumConstant(ReplyingMarks(states[0].servers), 0);
    } else {
      RepliesBounded(states, steps, n - 1);
      StepRepliesAddUp(states[n - 1], steps[n - 1]);
    }
  }
}
