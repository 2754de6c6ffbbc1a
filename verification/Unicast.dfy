/** A message for one node of a tree of peers: exactly who processes it, and over how many transmissions. A node next to
    the destination sends it there and nowhere else; all others flood it, and process it themselves. */
module Unicast {
  import opened PeerTree
  import opened Routing
  import opened Flood

  // The neighbour of d on the way to o.
  function Gate(n: Net, o: Host, d: Host): Host
    requires (d, o) in n.hop
  {
    n.hop[(d, o)]
  }

  // x lies on o's side of w.
  ghost predicate OnSide(n: Net, w: Host, o: Host, x: Host)
    requires Shaped(n) && w in n.nodes && o in n.nodes && w != o
  {
    x in n.nodes && x != w && n.hop[(w, x)] == n.hop[(w, o)]
  }

  /** Who processes a message from o to d: d, and all nodes on o's side of the last node before d, unless that is o. */
  ghost function Handlers(n: Net, o: Host, d: Host): set<Host>
    requires ValidNet(n) && o in n.nodes && d in n.nodes && o != d
  {
    var w := Gate(n, o, d);
    assert NodeOk(n, d);
    {d} + if w == o then {} else set x | x in n.nodes && OnSide(n, w, o, x)
  }

  // The nodes the message reaches.
  ghost function Reached(n: Net, o: Host, d: Host): set<Host>
    requires ValidNet(n) && o in n.nodes && d in n.nodes && o != d
  {
    Handlers(n, o, d) + {Gate(n, o, d)}
  }

  ghost predicate Between(n: Net, o: Host, d: Host) { ValidNet(n) && o in n.nodes && d in n.nodes && o != d }

  lemma GateFacts(n: Net, o: Host, d: Host)
    requires Between(n, o, d)
    ensures var w := Gate(n, o, d);
      && w in n.nodes && w != d && w in n.peers[d] && d in n.peers[w] && n.hop[(w, d)] == d
      && (w != o ==> n.hop[(w, o)] != d && !OnSide(n, w, o, d) && OnSide(n, w, o, o))
  {
    var w := Gate(n, o, d);
    assert NodeOk(n, d);
    assert LinkOk(n, d, w, o);
    assert LinkOk(n, w, d, o);
  }

  // The neighbours of a node on o's side are on o's side too, or are the gate itself.
  lemma SideNeighbour(n: Net, o: Host, d: Host, v: Host, y: Host)
    requires Between(n, o, d) && Gate(n, o, d) != o && Gate(n, o, d) in n.nodes
    requires OnSide(n, Gate(n, o, d), o, v) && y in n.peers[v]
    ensures var w := Gate(n, o, d); y in n.nodes && y != d && if y == w then v == n.hop[(w, o)] else OnSide(n, w, o, y)
  {
    var w := Gate(n, o, d);
    GateFacts(n, o, d);
    assert NodeOk(n, v);
    if y == w { assert LinkOk(n, v, w, v) && LinkOk(n, w, v, v); } else { assert DirectionOk(n, w, v, y); }
  }

  // A packet on the way to d.
  ghost predicate PacketOk(n: Net, o: Host, d: Host, p: Packet)
    requires Between(n, o, d)
  {
    var w := Gate(n, o, d);
    && p.sender in n.nodes && p.receiver in n.nodes && p.receiver in n.peers[p.sender] && w in n.nodes
    && if p.receiver == d then p.sender == w
       else
         && w != o && OnSide(n, w, o, p.sender)
         && if p.receiver == w then p.sender == n.hop[(w, o)] else OnSide(n, w, o, p.receiver)
  }

  // What a packet covers of the nodes that the message reaches.
  ghost predicate CoverStep(n: Net, o: Host, d: Host, p: Packet, ps: seq<Packet>)
    requires Between(n, o, d) && PacketOk(n, o, d, p)
  {
    && OnLinks(n, ps) && (forall q | q in ps :: PacketOk(n, o, d, q))
    && forall x | x in Reached(n, o, d) ::
         multiset(Cover(n, p.sender, p.receiver))[x] == (if x == p.receiver then 1 else 0) + Covered(n, ps)[x]
  }

  lemma AtTarget(n: Net, o: Host, d: Host, p: Packet)
    requires Between(n, o, d) && PacketOk(n, o, d, p) && p.receiver == d
    ensures Route(d, n.peers[d], At(d), At(p.sender)) == Routed([], true) && Copies(d, []) == []
    ensures CoverStep(n, o, d, p, [])
  {
    GateFacts(n, o, d);
    assert LinkOk(n, p.sender, d, d);
  }

  lemma AtGate(n: Net, o: Host, d: Host, p: Packet)
    requires Between(n, o, d) && PacketOk(n, o, d, p) && p.receiver == Gate(n, o, d) && p.receiver != d
    ensures Route(p.receiver, n.peers[p.receiver], At(d), At(p.sender)) == Routed([d], false)
    ensures Copies(p.receiver, [d]) == [Packet(p.receiver, d)] && CoverStep(n, o, d, p, Copies(p.receiver, [d]))
  {
    var w, u := p.receiver, p.sender;
    GateFacts(n, o, d);
    OneCover(n, w, d);
    forall x | x in Reached(n, o, d)
      ensures multiset(Cover(n, u, w))[x] == (if x == w then 1 else 0) + multiset(Cover(n, w, d))[x]
    {
      assert LinkOk(n, u, w, x) && LinkOk(n, w, d, x) && LinkOk(n, u, w, w);
    }
  }

  lemma OneCover(n: Net, w: Host, d: Host)
    requires ValidNet(n) && w in n.nodes && d in n.nodes && d in n.peers[w]
    ensures Copies(w, [d]) == [Packet(w, d)] && OnLinks(n, Copies(w, [d]))
    ensures Covered(n, Copies(w, [d])) == multiset(Cover(n, w, d))
  {
    assert [d][1..] == [] && Copies(w, [d][1..]) == [];
    var ps := Copies(w, [d]);
    assert ps == [Packet(w, d)];
    assert ps[1..] == [];
  }

  lemma OnTheWay(n: Net, o: Host, d: Host, p: Packet)
    requires Between(n, o, d) && PacketOk(n, o, d, p) && p.receiver != d && p.receiver != Gate(n, o, d)
    ensures var ws := Except(n.peers[p.receiver], At(p.sender));
      && Route(p.receiver, n.peers[p.receiver], At(d), At(p.sender)) == Routed(ws, true)
      && |Copies(p.receiver, ws)| == |ws| && CoverStep(n, o, d, p, Copies(p.receiver, ws))
  {
    var v, u := p.receiver, p.sender;
    var ws := Except(n.peers[v], At(u));
    CoverSplits(n, u, v);
    assert LinkOk(n, u, v, v);
    if d in n.peers[v] { SideNeighbour(n, o, d, v, d); }
    forall q | q in Copies(v, ws) ensures PacketOk(n, o, d, q) {
      CopiesFrom(v, ws, q);
      ExceptHas(n.peers[v], At(u), q.receiver);
      SideNeighbour(n, o, d, v, q.receiver);
    }
  }

  // -- The invariant --

  // How often a node other than o has been passed by the message, and how often it has processed it.
  ghost predicate NodeCount(n: Net, o: Host, d: Host, toSelf: bool, s: State, x: Host)
    requires Between(n, o, d) && OnLinks(n, s.flight)
  {
    var w := Gate(n, o, d);
    if x == o then Covered(n, s.flight)[x] == 0 && s.got[x] == (if toSelf && w != o then 1 else 0)
    else if x in Reached(n, o, d) then
      Covered(n, s.flight)[x] <= 1 && s.got[x] == (if x == w then 0 else 1 - Covered(n, s.flight)[x])
    else s.got[x] == 0
  }

  ghost function Ahead(n: Net, o: Host, d: Host, flight: seq<Packet>): multiset<Host>
    requires Between(n, o, d) && OnLinks(n, flight)
  {
    Covered(n, flight) * multiset(Reached(n, o, d))
  }

  ghost predicate ExactInv(n: Net, o: Host, d: Host, toSelf: bool, s: State, k: nat) {
    && Between(n, o, d) && OnLinks(n, s.flight)
    && (forall p | p in s.flight :: PacketOk(n, o, d, p))
    && (forall x :: NodeCount(n, o, d, toSelf, s, x))
    && s.sent == |s.flight| + k
    && |Ahead(n, o, d, s.flight)| + k == |Handlers(n, o, d)|
  }

  lemma ReachedSize(n: Net, o: Host, d: Host)
    requires Between(n, o, d)
    ensures o in Reached(n, o, d) && |Reached(n, o, d)| == |Handlers(n, o, d)| + 1
    ensures forall x | x in Reached(n, o, d) :: x in n.nodes
  {
    GateFacts(n, o, d);
    assert Gate(n, o, d) !in Handlers(n, o, d);
  }

  // The first packets cover each node but o once.
  lemma StartAhead(n: Net, o: Host, d: Host, flight: seq<Packet>)
    requires Between(n, o, d) && OnLinks(n, flight)
    requires forall x | x in Reached(n, o, d) :: Covered(n, flight)[x] == if x == o then 0 else 1
    ensures |Ahead(n, o, d, flight)| == |Handlers(n, o, d)|
  {
    ReachedSize(n, o, d);
    assert Ahead(n, o, d, flight) == multiset(Reached(n, o, d) - {o});
  }

  // The counts of a first state in which copies go out to cover each node but o once.
  lemma FirstCounts(n: Net, o: Host, d: Host, toSelf: bool, flight: seq<Packet>)
    requires Between(n, o, d) && OnLinks(n, flight) && forall p | p in flight :: PacketOk(n, o, d, p)
    requires forall x | x in Reached(n, o, d) :: Covered(n, flight)[x] == if x == o then 0 else 1
    ensures var here := Here(o, toSelf && Gate(n, o, d) != o);
      ExactInv(n, o, d, toSelf, State(flight, here, |flight|), 0)
  {
    StartAhead(n, o, d, flight);
    ReachedSize(n, o, d);
  }

  lemma ExactStart(n: Net, o: Host, d: Host, toSelf: bool)
    requires Between(n, o, d)
    ensures ExactInv(n, o, d, toSelf, Start(n, o, At(d), toSelf), 0)
  {
    if Gate(n, o, d) == o {
      NearStart(n, o, d);
      NearSends(n, o, d, toSelf);
      FirstCounts(n, o, d, toSelf, Copies(o, [d]));
    } else {
      FarStart(n, o, d);
      ReachedSize(n, o, d);
      FarSends(n, o, d, toSelf);
      FirstCounts(n, o, d, toSelf, Copies(o, n.peers[o]));
    }
  }

  lemma NearSends(n: Net, o: Host, d: Host, toSelf: bool)
    requires o in n.peers && o != d && d in n.peers[o] && |Copies(o, [d])| == 1
    ensures Start(n, o, At(d), toSelf) == State(Copies(o, [d]), multiset{}, 1)
  {
    assert [] + Copies(o, [d]) == Copies(o, [d]);
  }

  lemma FarSends(n: Net, o: Host, d: Host, toSelf: bool)
    requires o in n.peers && o != d && d !in n.peers[o] && |Copies(o, n.peers[o])| == |n.peers[o]|
    ensures Start(n, o, At(d), toSelf) == State(Copies(o, n.peers[o]), Here(o, toSelf), |n.peers[o]|)
  {
    ExceptNone(n.peers[o], if toSelf then UnspecifiedV6 else LoopbackV6);
    assert [] + Copies(o, n.peers[o]) == Copies(o, n.peers[o]);
  }

  lemma NearStart(n: Net, o: Host, d: Host)
    requires Between(n, o, d) && Gate(n, o, d) == o
    ensures d in n.peers[o] && |Copies(o, [d])| == 1 && OnLinks(n, Copies(o, [d]))
    ensures forall p | p in Copies(o, [d]) :: PacketOk(n, o, d, p)
    ensures forall x | x in Reached(n, o, d) :: Covered(n, Copies(o, [d]))[x] == if x == o then 0 else 1
  {
    GateFacts(n, o, d);
    OneCover(n, o, d);
    assert LinkOk(n, o, d, d);
  }

  lemma FarStart(n: Net, o: Host, d: Host)
    requires Between(n, o, d) && Gate(n, o, d) != o
    ensures d !in n.peers[o] && OnLinks(n, Copies(o, n.peers[o])) && |Copies(o, n.peers[o])| == |n.peers[o]|
    ensures forall p | p in Copies(o, n.peers[o]) :: PacketOk(n, o, d, p)
    ensures forall x | x in n.nodes :: Covered(n, Copies(o, n.peers[o]))[x] == if x == o then 0 else 1
  {
    GateFacts(n, o, d);
    StartCovers(n, o);
    if d in n.peers[o] { SideNeighbour(n, o, d, o, d); }
    forall p | p in Copies(o, n.peers[o]) ensures PacketOk(n, o, d, p) {
      CopiesFrom(o, n.peers[o], p);
      SideNeighbour(n, o, d, o, p.receiver);
    }
    var c := Covered(n, Copies(o, n.peers[o]));
    forall x | x in n.nodes ensures c[x] == if x == o then 0 else 1 {
      assert multiset(n.nodes)[x] == (multiset{o} + c)[x];
    }
  }

  // The packet p is replaced by the packets ps.
  ghost predicate Replaces(n: Net, o: Host, d: Host, s: State, flight: seq<Packet>, p: Packet)
    requires Between(n, o, d) && OnLinks(n, s.flight) && OnLinks(n, flight)
  {
    forall x | x in Reached(n, o, d) ::
      Covered(n, s.flight)[x] == (if x == p.receiver then 1 else 0) + Covered(n, flight)[x]
  }

  lemma Replaced(n: Net, o: Host, d: Host, s: State, rest: seq<Packet>, p: Packet, ps: seq<Packet>)
    requires Between(n, o, d) && OnLinks(n, s.flight) && OnLinks(n, rest) && OnLinks(n, ps) && OnLinks(n, rest + ps)
    requires PacketOk(n, o, d, p) && CoverStep(n, o, d, p, ps)
    requires Covered(n, s.flight) == multiset(Cover(n, p.sender, p.receiver)) + Covered(n, rest)
    requires Covered(n, rest + ps) == Covered(n, rest) + Covered(n, ps)
    ensures Replaces(n, o, d, s, rest + ps, p)
  {
  }

  lemma AheadFalls(n: Net, o: Host, d: Host, toSelf: bool, s: State, flight: seq<Packet>, p: Packet)
    requires Between(n, o, d) && OnLinks(n, s.flight) && OnLinks(n, flight) && Replaces(n, o, d, s, flight, p)
    requires p.receiver in Reached(n, o, d) && forall x :: NodeCount(n, o, d, toSelf, s, x)
    ensures |Ahead(n, o, d, flight)| + 1 == |Ahead(n, o, d, s.flight)|
  {
    forall x | x in Reached(n, o, d) ensures Covered(n, s.flight)[x] <= 1 { assert NodeCount(n, o, d, toSelf, s, x); }
    assert Ahead(n, o, d, s.flight) == Ahead(n, o, d, flight) + multiset{p.receiver};
  }

  lemma CountOn(n: Net, o: Host, d: Host, toSelf: bool, s: State, s2: State, p: Packet, x: Host)
    requires Between(n, o, d) && OnLinks(n, s.flight) && OnLinks(n, s2.flight) && Replaces(n, o, d, s, s2.flight, p)
    requires p.receiver in Reached(n, o, d) && o in Reached(n, o, d) && forall y :: NodeCount(n, o, d, toSelf, s, y)
    requires s2.got == s.got + Here(p.receiver, p.receiver != Gate(n, o, d))
    ensures NodeCount(n, o, d, toSelf, s2, x)
  {
    assert NodeCount(n, o, d, toSelf, s, x) && NodeCount(n, o, d, toSelf, s, p.receiver);
  }

  // What the arrival of a packet leads to.
  lemma Arrival(n: Net, o: Host, d: Host, s: State, i: nat) returns (ps: seq<Packet>)
    requires Between(n, o, d) && i < |s.flight| && PacketOk(n, o, d, s.flight[i])
    ensures var p := s.flight[i];
      && CoverStep(n, o, d, p, ps)
      && Arrive(n, s, At(d), i) == State(s.flight[..i] + s.flight[i + 1..] + ps,
                                        s.got + Here(p.receiver, p.receiver != Gate(n, o, d)), s.sent + |ps|)
  {
    var p := s.flight[i];
    var v := p.receiver;
    ps := Copies(v, Route(v, n.peers[v], At(d), At(p.sender)).sentTo);
    if v == d {
      GateFacts(n, o, d);
      AtTarget(n, o, d, p);
    } else if v == Gate(n, o, d) {
      AtGate(n, o, d, p);
    } else {
      OnTheWay(n, o, d, p);
    }
  }

  lemma ExactArrives(n: Net, o: Host, d: Host, toSelf: bool, s: State, k: nat, i: nat)
    requires ExactInv(n, o, d, toSelf, s, k) && i < |s.flight|
    ensures s.flight[i].receiver in n.peers && ExactInv(n, o, d, toSelf, Arrive(n, s, At(d), i), k + 1)
  {
    var p, rest := s.flight[i], s.flight[..i] + s.flight[i + 1..];
    assert p in s.flight && PacketOk(n, o, d, p);
    var ps := Arrival(n, o, d, s, i);
    var s2 := Arrive(n, s, At(d), i);
    CoveredRemove(n, s.flight, i);
    CoveredAppend(n, rest, ps);
    Replaced(n, o, d, s, rest, p, ps);
    ReachedSize(n, o, d);
    assert p.receiver in Reached(n, o, d);
    AheadFalls(n, o, d, toSelf, s, rest + ps, p);
    forall x ensures NodeCount(n, o, d, toSelf, s2, x) { CountOn(n, o, d, toSelf, s, s2, p, x); }
  }

  lemma {:induction false} ExactRun(n: Net, o: Host, d: Host, toSelf: bool, states: seq<State>, choices: seq<nat>, k: nat)
    requires Between(n, o, d) && k < |states|
    requires Run(n, At(d), states, choices) && states[0] == Start(n, o, At(d), toSelf)
    ensures ExactInv(n, o, d, toSelf, states[k], k)
  {
    if k == 0 {
      ExactStart(n, o, d, toSelf);
    } else {
      ExactRun(n, o, d, toSelf, states, choices, k - 1);
      ExactArrives(n, o, d, toSelf, states[k - 1], k - 1, choices[k - 1]);
    }
  }

  // Who processes the message; the originator only if it asked to.
  ghost function Processors(n: Net, o: Host, d: Host, toSelf: bool): set<Host>
    requires Between(n, o, d)
  {
    if toSelf then Handlers(n, o, d) else Handlers(n, o, d) - {o}
  }

  /** On any tree and under any interleaving, a message from o to d is processed by d and by the nodes on o's side of the
      last node before d, the originator only if it asked to, and by nobody else: never twice, and exactly once each when
      no packet is left. By then as many packets were transmitted as there are such nodes, counting the originator. */
  lemma UnicastProcessors(n: Net, o: Host, d: Host, toSelf: bool, states: seq<State>, choices: seq<nat>)
    requires ValidNet(n) && o in n.nodes && d in n.nodes && o != d
    requires Run(n, At(d), states, choices) && states[0] == Start(n, o, At(d), toSelf)
    ensures var last := states[|choices|];
      && last.got <= multiset(Processors(n, o, d, toSelf)) && |choices| <= |Handlers(n, o, d)|
      && (last.flight == [] ==>
            last.got == multiset(Processors(n, o, d, toSelf)) && last.sent == |choices| == |Handlers(n, o, d)|)
  {
    ExactRun(n, o, d, toSelf, states, choices, |choices|);
    GateFacts(n, o, d);
    var last := states[|choices|];
    forall x
      ensures last.got[x] <= multiset(Processors(n, o, d, toSelf))[x]
      ensures last.flight == [] ==> last.got[x] == multiset(Processors(n, o, d, toSelf))[x]
    {
      assert NodeCount(n, o, d, toSelf, last, x);
    }
  }

  /** A message for a neighbour is transmitted once, and nobody else processes it. */
  lemma LinkedExactly(n: Net, o: Host, d: Host, toSelf: bool, states: seq<State>, choices: seq<nat>)
    requires ValidNet(n) && o in n.nodes && d in n.peers[o]
    requires Run(n, At(d), states, choices) && states[0] == Start(n, o, At(d), toSelf)
    ensures states[|choices|].flight == [] ==> states[|choices|].got == multiset{d} && states[|choices|].sent == 1
    ensures states[|choices|].flight != [] ==> states[|choices|].got == multiset{} && |choices| == 0
  {
    assert NodeOk(n, o);
    assert LinkOk(n, o, d, d) && LinkOk(n, d, o, o);
    UnicastProcessors(n, o, d, toSelf, states, choices);
    assert Handlers(n, o, d) == {d};
    if states[|choices|].flight != [] {
      ExactRun(n, o, d, toSelf, states, choices, |choices|);
      LinkedFlight(n, o, d, toSelf, states[|choices|], |choices|);
    }
  }

  lemma LinkedFlight(n: Net, o: Host, d: Host, toSelf: bool, s: State, k: nat)
    requires ExactInv(n, o, d, toSelf, s, k) && Gate(n, o, d) == o && s.flight != []
    ensures k == 0 && s.got == multiset{}
  {
    var p := s.flight[0];
    assert p in s.flight && PacketOk(n, o, d, p);
    GateFacts(n, o, d);
    assert LinkOk(n, p.sender, d, d);
    CoveredRemove(n, s.flight, 0);
    assert d in Cover(n, p.sender, d) && NodeCount(n, o, d, toSelf, s, d);
    assert Handlers(n, o, d) == {d} && d in Ahead(n, o, d, s.flight);
    forall x ensures s.got[x] == 0 { assert NodeCount(n, o, d, toSelf, s, x); }
  }

  /** A message for the node itself or the loopback address is processed there and not transmitted, even if the sender asked
      not to be included. */
  lemma LocalOnly(n: Net, o: Host, destination: Address, toSelf: bool, states: seq<State>, choices: seq<nat>)
    requires o in n.peers && Run(n, destination, states, choices) && states[0] == Start(n, o, destination, toSelf)
    requires destination == LoopbackV6 || destination == LoopbackV4 || destination == At(o)
    ensures states[0] == State([], multiset{o}, 0) && choices == []
  {
    assert Copies(o, []) == [];
  }
}
