/** Flooding a message over a tree of peers, in any interleaving of packet deliveries. */
module Flood {
  import opened PeerTree
  import opened Routing

  // A copy of the message on its way over one link.
  datatype Packet = Packet(sender: Host, receiver: Host)

  /** The nodes a packet on the link from u to v still has to reach: all those beyond v. */
  function Cover(n: Net, u: Host, v: Host): set<Host>
    requires forall x | x in n.nodes && x != u :: (u, x) in n.hop
  {
    set x | x in n.nodes && x != u && n.hop[(u, x)] == v
  }

  // Packets in flight, where the message was processed locally, and how many link transmissions were made.
  datatype State = State(flight: seq<Packet>, got: multiset<Host>, sent: nat)

  function Copies(from_: Host, ws: seq<Host>): seq<Packet> {
    if ws == [] then [] else [Packet(from_, ws[0])] + Copies(from_, ws[1..])
  }

  function Apply(s: State, v: Host, routed: Routed): State {
    State(s.flight + Copies(v, routed.sentTo), s.got + (if routed.local then multiset{v} else multiset{}),
          s.sent + |routed.sentTo|)
  }

  /** PeerManager::send at the originator: the source is unspecified, or the loopback address if the originator
      does not want the message itself. */
  function Start(n: Net, origin: Host, destination: Address, toSelf: bool): State
    requires origin in n.peers
  {
    Apply(State([], multiset{}, 0), origin,
          Route(origin, n.peers[origin], destination, if toSelf then UnspecifiedV6 else LoopbackV6))
  }

  /** Some packet arrives. The previous hop is not transmitted with a message, so the receiver takes the address
      of the connection for it. */
  function Arrive(n: Net, s: State, destination: Address, i: nat): State
    requires i < |s.flight| && s.flight[i].receiver in n.peers
  {
    var p := s.flight[i];
    Apply(s.(flight := s.flight[..i] + s.flight[i + 1..]), p.receiver,
          Route(p.receiver, n.peers[p.receiver], destination, At(p.sender)))
  }

  // -- Where packets are still going --

  ghost predicate OnLinks(n: Net, flight: seq<Packet>)
    requires n.peers.Keys == n.nodes
  {
    forall p | p in flight :: p.sender in n.nodes && p.receiver in n.nodes && p.receiver in n.peers[p.sender]
  }

  ghost function Covered(n: Net, flight: seq<Packet>): multiset<Host>
    requires ValidNet(n) && OnLinks(n, flight)
  {
    if flight == [] then multiset{}
    else multiset(Cover(n, flight[0].sender, flight[0].receiver)) + Covered(n, flight[1..])
  }

  lemma {:induction false} CoveredAppend(n: Net, xs: seq<Packet>, ys: seq<Packet>)
    requires ValidNet(n) && OnLinks(n, xs) && OnLinks(n, ys)
    ensures OnLinks(n, xs + ys) && Covered(n, xs + ys) == Covered(n, xs) + Covered(n, ys)
  {
    if xs == [] {
      assert xs + ys == ys;
    } else {
      assert (xs + ys)[1..] == xs[1..] + ys;
      CoveredAppend(n, xs[1..], ys);
    }
  }

  lemma CoveredRemove(n: Net, flight: seq<Packet>, i: nat)
    requires ValidNet(n) && OnLinks(n, flight) && i < |flight|
    ensures var rest := flight[..i] + flight[i + 1..];
      && OnLinks(n, rest)
      && Covered(n, flight) == multiset(Cover(n, flight[i].sender, flight[i].receiver)) + Covered(n, rest)
  {
    var p := [flight[i]];
    assert p[1..] == [];
    CoveredAppend(n, flight[..i], flight[i + 1..]);
    CoveredAppend(n, p, flight[i + 1..]);
    CoveredAppend(n, flight[..i], p + flight[i + 1..]);
    assert flight == flight[..i] + (p + flight[i + 1..]);
  }

  // Whether x lies in the direction of one of the neighbours ws of v.
  ghost function Lies(n: Net, v: Host, ws: seq<Host>, x: Host): nat
    requires ValidNet(n) && v in n.nodes
  {
    if x in n.nodes && x != v && n.hop[(v, x)] in ws then 1 else 0
  }

  // Copies sent by v to some of its neighbours cover the nodes that lie in the direction of these.
  lemma {:induction false} CoveredCopies(n: Net, v: Host, ws: seq<Host>)
    requires ValidNet(n) && v in n.nodes
    requires NoDuplicates(ws)
    requires forall w | w in ws :: w in n.nodes && w in n.peers[v]
    ensures |Copies(v, ws)| == |ws| && OnLinks(n, Copies(v, ws))
    ensures forall p | p in Copies(v, ws) :: p.sender == v && p.receiver in ws
    ensures forall x :: Covered(n, Copies(v, ws))[x] == Lies(n, v, ws, x)
  {
    if ws != [] {
      CoveredCopies(n, v, ws[1..]);
      assert ws == [ws[0]] + ws[1..];
      assert Copies(v, ws)[1..] == Copies(v, ws[1..]);
    }
  }

  /** The heart of the argument: what a packet from u to v covers is v itself and what the copies cover that v
      sends to its peers other than u. */
  lemma CoverSplits(n: Net, u: Host, v: Host)
    requires ValidNet(n) && u in n.nodes && v in n.nodes && v in n.peers[u]
    ensures var ws := Except(n.peers[v], At(u));
      OnLinks(n, Copies(v, ws)) && |Copies(v, ws)| == |ws| &&
      multiset(Cover(n, u, v)) == multiset{v} + Covered(n, Copies(v, ws))
  {
    var ws := Except(n.peers[v], At(u));
    assert NodeOk(n, v);
    ExceptDistinct(n.peers[v], At(u));
    forall w | w in ws ensures w in n.nodes && w in n.peers[v] {
      ExceptHas(n.peers[v], At(u), w);
    }
    CoveredCopies(n, v, ws);
    forall x ensures multiset(Cover(n, u, v))[x] == multiset{v}[x] + Lies(n, v, ws, x) {
      CoverCount(n, u, v, x);
    }
  }

  lemma CoverCount(n: Net, u: Host, v: Host, x: Host)
    requires ValidNet(n) && u in n.nodes && v in n.nodes && v in n.peers[u]
    ensures multiset(Cover(n, u, v))[x] ==
      (if x == v then 1 else 0) + Lies(n, v, Except(n.peers[v], At(u)), x)
  {
    if x in n.nodes {
      assert LinkOk(n, u, v, x);
      assert LinkOk(n, v, u, x);
      if x != v {
        var w := n.hop[(v, x)];
        assert NodeOk(n, v);
        assert w in n.peers[v];
        ExceptHas(n.peers[v], At(u), w);
      }
    }
  }

  lemma StartCovers(n: Net, o: Host)
    requires ValidNet(n) && o in n.nodes
    ensures OnLinks(n, Copies(o, n.peers[o])) && |Copies(o, n.peers[o])| == |n.peers[o]|
    ensures multiset(n.nodes) == multiset{o} + Covered(n, Copies(o, n.peers[o]))
  {
    assert NodeOk(n, o);
    CoveredCopies(n, o, n.peers[o]);
    forall x ensures multiset(n.nodes)[x] == multiset{o}[x] + Lies(n, o, n.peers[o], x) {
      if x in n.nodes && x != o { assert n.hop[(o, x)] in n.peers[o]; }
    }
  }

  lemma {:induction false} ExceptNone(peers: seq<Host>, source: Address)
    requires !source.At?
    ensures Except(peers, source) == peers
  {
    if peers != [] { ExceptNone(peers[1..], source); }
  }

  // -- Broadcast --

  // The destination is everybody, or a host that is not there.
  ghost predicate ToAll(n: Net, destination: Address) {
    destination == UnspecifiedV6 || destination == UnspecifiedV4 || (destination.At? && destination.host !in n.nodes)
  }

  lemma RoutesToAll(n: Net, v: Host, destination: Address, source: Address)
    requires ValidNet(n) && v in n.nodes && ToAll(n, destination)
    ensures var routed := Route(v, n.peers[v], destination, source);
      routed == Routed(Except(n.peers[v], source),
                       source != LoopbackV6 && source != LoopbackV4 && source != At(v))
  {
    assert NodeOk(n, v);
  }

  // Nodes where the message has been processed, and nodes that packets in flight still cover, partition the
  // tree; the originator may be left out.
  ghost predicate BroadcastInv(n: Net, origin: Host, toSelf: bool, s: State) {
    && ValidNet(n) && OnLinks(n, s.flight)
    && multiset(n.nodes) == s.got + Covered(n, s.flight) + (if toSelf then multiset{} else multiset{origin})
    && s.sent + 1 == |s.flight| + |s.got| + (if toSelf then 0 else 1)
  }

  lemma BroadcastStarts(n: Net, origin: Host, destination: Address, toSelf: bool)
    requires ValidNet(n) && origin in n.nodes && ToAll(n, destination)
    ensures BroadcastInv(n, origin, toSelf, Start(n, origin, destination, toSelf))
  {
    RoutesToAll(n, origin, destination, if toSelf then UnspecifiedV6 else LoopbackV6);
    ExceptNone(n.peers[origin], if toSelf then UnspecifiedV6 else LoopbackV6);
    StartCovers(n, origin);
    assert [] + Copies(origin, n.peers[origin]) == Copies(origin, n.peers[origin]);
  }

  lemma BroadcastArrives(n: Net, origin: Host, destination: Address, toSelf: bool, s: State, i: nat)
    requires BroadcastInv(n, origin, toSelf, s) && ToAll(n, destination) && i < |s.flight|
    ensures var s2 := Arrive(n, s, destination, i);
      BroadcastInv(n, origin, toSelf, s2) && |s2.got| == |s.got| + 1
  {
    var p := s.flight[i];
    assert p in s.flight;
    assert LinkOk(n, p.sender, p.receiver, p.receiver);
    RoutesToAll(n, p.receiver, destination, At(p.sender));
    CoverSplits(n, p.sender, p.receiver);
    CoveredRemove(n, s.flight, i);
    CoveredAppend(n, s.flight[..i] + s.flight[i + 1..],
                  Copies(p.receiver, Except(n.peers[p.receiver], At(p.sender))));
  }

  // -- Runs: each choice picks the packet that arrives next --

  ghost predicate Run(n: Net, destination: Address, states: seq<State>, choices: seq<nat>) {
    && |states| == |choices| + 1
    && forall k | 0 <= k < |choices| ::
         && choices[k] < |states[k].flight|
         && states[k].flight[choices[k]].receiver in n.peers
         && states[k + 1] == Arrive(n, states[k], destination, choices[k])
  }

  lemma {:induction false} BroadcastRun(n: Net, origin: Host, destination: Address, toSelf: bool, states: seq<State>,
                                        choices: seq<nat>, k: nat)
    requires ValidNet(n) && origin in n.nodes && ToAll(n, destination)
    requires Run(n, destination, states, choices) && states[0] == Start(n, origin, destination, toSelf)
    requires k < |states|
    ensures BroadcastInv(n, origin, toSelf, states[k])
    ensures |states[k].got| == k + (if toSelf then 1 else 0)
  {
    if k == 0 {
      BroadcastStarts(n, origin, destination, toSelf);
    } else {
      BroadcastRun(n, origin, destination, toSelf, states, choices, k - 1);
      BroadcastArrives(n, origin, destination, toSelf, states[k - 1], choices[k - 1]);
    }
  }

  /** On any tree, in any interleaving: at every moment no node has processed the broadcast twice, and at most
      n-1 packets have arrived. When no packet is left, every node has processed it exactly once (the originator
      only if it asked to) over exactly n-1 link transmissions. A run that has not delivered to everybody can go
      on. The same holds of a message for a host that is not there. */
  lemma BroadcastExactlyOnce(n: Net, origin: Host, destination: Address, toSelf: bool, states: seq<State>,
                             choices: seq<nat>)
    requires ValidNet(n) && origin in n.nodes && ToAll(n, destination)
    requires Run(n, destination, states, choices) && states[0] == Start(n, origin, destination, toSelf)
    ensures var last := states[|choices|]; var everyone := multiset(n.nodes) - if toSelf then multiset{} else multiset{origin};
      && last.got <= everyone
      && |choices| <= |n.nodes| - 1
      && (last.flight == [] <==> last.got == everyone)
      && (last.flight == [] ==> |choices| == last.sent == |n.nodes| - 1)
  {
    var last := states[|choices|];
    BroadcastRun(n, origin, destination, toSelf, states, choices, |choices|);
    assert |multiset(n.nodes)| == |n.nodes|;
    if last.flight != [] {
      var p := last.flight[0];
      assert p in last.flight;
      assert LinkOk(n, p.sender, p.receiver, p.receiver);
      assert Covered(n, last.flight)[p.receiver] > 0;
    }
  }

  // -- Messages to one node --

  // The nodes that lie behind d, seen from o.
  ghost predicate Behind(n: Net, o: Host, d: Host, x: Host)
    requires ValidNet(n) && o in n.nodes && d in n.nodes && o != d
  {
    x in n.nodes && x != d && n.hop[(d, x)] != n.hop[(d, o)]
  }

  // No node is reached twice, and d has its message or one packet is on the way to it.
  ghost predicate Counted(nodes: multiset<Host>, d: Host, got: multiset<Host>, covered: multiset<Host>) {
    got + covered <= nodes && got[d] + covered[d] == 1
  }

  // Nothing has passed d.
  ghost predicate Confined(n: Net, o: Host, d: Host, flight: seq<Packet>, got: multiset<Host>)
    requires ValidNet(n) && o in n.nodes && d in n.nodes && o != d
  {
    && (forall p | p in flight :: p.sender != d && !Behind(n, o, d, p.receiver))
    && (forall x | x in got :: !Behind(n, o, d, x))
  }

  ghost predicate UnicastInv(n: Net, o: Host, d: Host, s: State) {
    && ValidNet(n) && OnLinks(n, s.flight) && o in n.nodes && d in n.nodes && o != d
    && Counted(multiset(n.nodes), d, s.got, Covered(n, s.flight))
    && Confined(n, o, d, s.flight, s.got)
  }

  // A cover is replaced by smaller ones, and possibly one local processing.
  lemma CountedStep(nodes: multiset<Host>, d: Host, got: multiset<Host>, cover: multiset<Host>, rest: multiset<Host>,
                    sent: multiset<Host>, here: multiset<Host>)
    requires Counted(nodes, d, got, cover + rest)
    requires sent + here <= cover && sent[d] + here[d] == cover[d]
    ensures Counted(nodes, d, got + here, rest + sent)
  {
    forall x ensures (got + here + (rest + sent))[x] <= nodes[x] {
      assert (sent + here)[x] <= cover[x];
      assert (got + (cover + rest))[x] <= nodes[x];
    }
  }

  // What v sends for d: one copy to d itself, or copies to all peers except the source.
  lemma UnicastSends(n: Net, u: Host, v: Host, d: Host)
    requires ValidNet(n) && u in n.nodes && v in n.nodes && v in n.peers[u] && d in n.nodes
    requires v != d && u != d
    ensures var routed := Route(v, n.peers[v], At(d), At(u)); var ps := Copies(v, routed.sentTo);
      && OnLinks(n, ps)
      && (forall p | p in ps :: p.sender == v && p.receiver in n.nodes && p.receiver in n.peers[v] && p.receiver != u)
      && (forall x :: Covered(n, ps)[x] + (if routed.local && x == v then 1 else 0) <= multiset(Cover(n, u, v))[x])
      && Covered(n, ps)[d] == multiset(Cover(n, u, v))[d]
  {
    assert LinkOk(n, u, v, v);
    if d in n.peers[v] {
      DirectSend(n, u, v, d);
    } else {
      CoverSplits(n, u, v);
      forall p | p in Copies(v, Except(n.peers[v], At(u))) ensures p.sender == v && p.receiver != u {
        CopiesFrom(v, Except(n.peers[v], At(u)), p);
        ExceptHas(n.peers[v], At(u), p.receiver);
      }
    }
  }

  lemma {:induction false} CopiesFrom(v: Host, ws: seq<Host>, p: Packet)
    requires p in Copies(v, ws)
    ensures p.sender == v && p.receiver in ws
  {
    if p != Packet(v, ws[0]) { CopiesFrom(v, ws[1..], p); }
  }

  lemma DirectSend(n: Net, u: Host, v: Host, d: Host)
    requires ValidNet(n) && u in n.nodes && v in n.nodes && v in n.peers[u] && d in n.peers[v] && u != d
    ensures d in n.nodes && d in n.peers[v] && Copies(v, [d]) == [Packet(v, d)]
    ensures OnLinks(n, [Packet(v, d)])
    ensures Covered(n, [Packet(v, d)]) <= multiset(Cover(n, u, v))
    ensures Covered(n, [Packet(v, d)])[d] == multiset(Cover(n, u, v))[d]
  {
    assert NodeOk(n, v);
    CoveredCopies(n, v, [d]);
    forall x ensures Lies(n, v, [d], x) <= multiset(Cover(n, u, v))[x] {
      if x in n.nodes && x != v { assert LinkOk(n, u, v, x); assert LinkOk(n, v, u, x); }
    }
    assert LinkOk(n, v, d, d);
    assert LinkOk(n, u, v, d);
  }

  function Here(v: Host, local: bool): multiset<Host> { if local then multiset{v} else multiset{} }

  lemma UnicastArrives(n: Net, o: Host, d: Host, s: State, i: nat)
    requires UnicastInv(n, o, d, s) && i < |s.flight|
    ensures s.flight[i].receiver in n.peers
    ensures var s2 := Arrive(n, s, At(d), i);
      UnicastInv(n, o, d, s2) && |Covered(n, s2.flight)| < |Covered(n, s.flight)|
  {
    var p := s.flight[i];
    assert p in s.flight;
    var rest := s.flight[..i] + s.flight[i + 1..];
    var routed := Route(p.receiver, n.peers[p.receiver], At(d), At(p.sender));
    var ps := Copies(p.receiver, routed.sentTo);
    CoveredRemove(n, s.flight, i);
    UnicastCovers(n, o, d, p);
    CoveredAppend(n, rest, ps);
    CountedStep(multiset(n.nodes), d, s.got, multiset(Cover(n, p.sender, p.receiver)), Covered(n, rest),
                Covered(n, ps), Here(p.receiver, routed.local));
    UnicastShrinks(n, p.sender, p.receiver, ps);
  }

  // What the receiver of a packet makes of it.
  lemma UnicastCovers(n: Net, o: Host, d: Host, p: Packet)
    requires ValidNet(n) && o in n.nodes && d in n.nodes && o != d
    requires p.sender in n.nodes && p.receiver in n.nodes && p.receiver in n.peers[p.sender]
    requires p.sender != d && !Behind(n, o, d, p.receiver)
    ensures var v := p.receiver; var routed := Route(v, n.peers[v], At(d), At(p.sender)); var ps := Copies(v, routed.sentTo);
      var cover := multiset(Cover(n, p.sender, v));
      && v in cover && OnLinks(n, ps)
      && Covered(n, ps) + Here(v, routed.local) <= cover
      && Covered(n, ps)[d] + Here(v, routed.local)[d] == cover[d]
      && forall q | q in ps :: q.sender == v && q.sender != d && !Behind(n, o, d, q.receiver)
  {
    assert LinkOk(n, p.sender, p.receiver, p.receiver);
    assert p.receiver in Cover(n, p.sender, p.receiver);
    if p.receiver == d {
      assert multiset(Cover(n, p.sender, d))[d] == 1;
    } else {
      UnicastSends(n, p.sender, p.receiver, d);
      var ps := Copies(p.receiver, Route(p.receiver, n.peers[p.receiver], At(d), At(p.sender)).sentTo);
      NothingPasses(n, o, d, p.receiver, ps);
    }
  }

  // Copies of a node that is not behind d do not go behind d.
  lemma NothingPasses(n: Net, o: Host, d: Host, v: Host, ps: seq<Packet>)
    requires ValidNet(n) && o in n.nodes && d in n.nodes && o != d && v in n.nodes && v != d
    requires !Behind(n, o, d, v)
    requires forall p | p in ps :: p.sender == v && p.receiver in n.nodes && p.receiver in n.peers[v]
    ensures forall p | p in ps :: !Behind(n, o, d, p.receiver)
  {
    forall p | p in ps && p.receiver != d ensures !Behind(n, o, d, p.receiver) {
      assert DirectionOk(n, d, v, p.receiver);
    }
  }

  lemma UnicastShrinks(n: Net, u: Host, v: Host, ps: seq<Packet>)
    requires ValidNet(n) && OnLinks(n, ps) && u in n.nodes
    requires v in Cover(n, u, v)
    requires forall p | p in ps :: p.sender == v
    requires forall x :: Covered(n, ps)[x] <= multiset(Cover(n, u, v))[x]
    ensures |Covered(n, ps)| < |multiset(Cover(n, u, v))|
  {
    CoveredNotSender(n, v, ps);
    assert Covered(n, ps) <= multiset(Cover(n, u, v)) - multiset{v};
    assert |Covered(n, ps)| + |multiset(Cover(n, u, v)) - multiset{v} - Covered(n, ps)|
        == |multiset(Cover(n, u, v)) - multiset{v}|;
  }

  lemma {:induction false} CoveredNotSender(n: Net, v: Host, ps: seq<Packet>)
    requires ValidNet(n) && OnLinks(n, ps) && forall p | p in ps :: p.sender == v
    ensures v !in Covered(n, ps)
  {
    if ps != [] {
      assert ps[0] in ps;
      CoveredNotSender(n, v, ps[1..]);
    }
  }

  lemma UnicastStarts(n: Net, o: Host, d: Host, toSelf: bool)
    requires ValidNet(n) && o in n.nodes && d in n.nodes && o != d
    ensures UnicastInv(n, o, d, Start(n, o, At(d), toSelf))
  {
    var source := if toSelf then UnspecifiedV6 else LoopbackV6;
    assert NodeOk(n, o);
    if d in n.peers[o] {
      DirectStart(n, o, d);
      NothingPasses(n, o, d, o, [Packet(o, d)]);
      assert [] + Copies(o, [d]) == [Packet(o, d)];
    } else {
      FloodStart(n, o, d, source);
    }
  }

  // Flooding from o covers everybody but o, and passes nobody.
  lemma FloodCovers(n: Net, o: Host, d: Host)
    requires ValidNet(n) && o in n.nodes && d in n.nodes && o != d
    ensures var ps := Copies(o, n.peers[o]);
      && OnLinks(n, ps) && multiset{o} + Covered(n, ps) == multiset(n.nodes)
      && forall p | p in ps :: p.sender == o && !Behind(n, o, d, p.receiver)
  {
    var ps := Copies(o, n.peers[o]);
    assert NodeOk(n, o);
    CoveredCopies(n, o, n.peers[o]);
    StartCovers(n, o);
    forall p | p in ps ensures p.sender == o && p.receiver in n.nodes && p.receiver in n.peers[o] {}
    NothingPasses(n, o, d, o, ps);
  }

  lemma FloodedInv(n: Net, o: Host, d: Host, s: State)
    requires ValidNet(n) && o in n.nodes && d in n.nodes && o != d
    requires s.flight == Copies(o, n.peers[o]) && s.got <= multiset{o}
    ensures UnicastInv(n, o, d, s)
  {
    FloodCovers(n, o, d);
    assert (multiset{o} + Covered(n, s.flight))[d] == 1;
    forall x ensures (s.got + Covered(n, s.flight))[x] <= multiset(n.nodes)[x] { }
  }

  lemma FloodStart(n: Net, o: Host, d: Host, source: Address)
    requires ValidNet(n) && o in n.nodes && d in n.nodes && o != d && !source.At? && d !in n.peers[o]
    ensures UnicastInv(n, o, d, Apply(State([], multiset{}, 0), o, Route(o, n.peers[o], At(d), source)))
  {
    ExceptNone(n.peers[o], source);
    assert [] + Copies(o, n.peers[o]) == Copies(o, n.peers[o]);
    FloodedInv(n, o, d, Apply(State([], multiset{}, 0), o, Route(o, n.peers[o], At(d), source)));
  }

  lemma DirectStart(n: Net, o: Host, d: Host)
    requires ValidNet(n) && o in n.nodes && d in n.nodes && d in n.peers[o]
    ensures Copies(o, [d]) == [Packet(o, d)] && OnLinks(n, [Packet(o, d)])
    ensures Covered(n, [Packet(o, d)]) <= multiset(n.nodes) && Covered(n, [Packet(o, d)])[d] == 1
  {
    CoveredCopies(n, o, [d]);
    assert LinkOk(n, o, d, d);
  }

  lemma {:induction false} UnicastRun(n: Net, o: Host, d: Host, toSelf: bool, states: seq<State>, choices: seq<nat>, k: nat)
    requires ValidNet(n) && o in n.nodes && d in n.nodes && o != d
    requires Run(n, At(d), states, choices) && states[0] == Start(n, o, At(d), toSelf)
    requires k < |states|
    ensures UnicastInv(n, o, d, states[k]) && |Covered(n, states[k].flight)| + k <= |n.nodes|
  {
    if k == 0 {
      UnicastStarts(n, o, d, toSelf);
      assert Covered(n, states[0].flight) <= multiset(n.nodes);
      assert |Covered(n, states[0].flight)| + |multiset(n.nodes) - Covered(n, states[0].flight)| == |n.nodes|;
    } else {
      UnicastRun(n, o, d, toSelf, states, choices, k - 1);
      UnicastArrives(n, o, d, states[k - 1], choices[k - 1]);
    }
  }

  /** On any tree, in any interleaving: a message from o to d arrives at most n times in all, no node behind d ever
      receives or processes it, nobody processes it twice, and when no packet is left d has processed it exactly
      once. */
  lemma UnicastExactlyOnce(n: Net, o: Host, d: Host, toSelf: bool, states: seq<State>, choices: seq<nat>)
    requires ValidNet(n) && o in n.nodes && d in n.nodes && o != d
    requires Run(n, At(d), states, choices) && states[0] == Start(n, o, At(d), toSelf)
    ensures |choices| <= |n.nodes|
    ensures forall k | 0 <= k < |states| ::
      Confined(n, o, d, states[k].flight, states[k].got) && states[k].got <= multiset(n.nodes)
    ensures states[|choices|].flight == [] ==> states[|choices|].got[d] == 1
  {
    forall k | 0 <= k < |states|
      ensures Confined(n, o, d, states[k].flight, states[k].got) && states[k].got <= multiset(n.nodes)
    {
      UnicastRun(n, o, d, toSelf, states, choices, k);
    }
    UnicastRun(n, o, d, toSelf, states, choices, |choices|);
  }
}
