/** One death in a network grown by joins alone: after failover the survivors always form one tree again, and messages
    flood it exactly once. */
module FailoverTree {
  import opened Wrappers
  import opened Routing
  import opened PeerManager
  import opened Recovery
  import F = Failover
  import T = PeerTree
  import Flood

  // -- Networks grown by joins --

  // A client's backups are the peers its gateway had before it, and a gateway comes first among a node's peers.
  ghost predicate GrownNode(n: Network, root: Host, y: Host) {
    y in n.nodes ==>
      var node := n.nodes[y];
      if y == root then node.gateway == None
      else
        && node.gateway.Some? && node.gateway.value in n.nodes
        && |node.peers| > 0 && node.peers[0] == node.gateway.value
        && y in n.nodes[node.gateway.value].peers
        && node.backups == n.nodes[node.gateway.value].peers[..IndexOf(n.nodes[node.gateway.value].peers, y)]
  }

  ghost predicate Grown(n: Network, root: Host) {
    n.alive == n.nodes.Keys && root in n.alive && forall y :: GrownNode(n, root, y)
  }

  lemma {:induction false} IndexInPrefix(s: seq<Host>, t: seq<Host>, x: Host)
    requires x in s
    ensures IndexOf(s + t, x) == IndexOf(s, x)
  {
    if s[0] != x {
      assert (s + t)[1..] == s[1..] + t;
      IndexInPrefix(s[1..], t, x);
    }
  }

  lemma {:induction false} IndexOfLast(s: seq<Host>, x: Host)
    requires x !in s
    ensures IndexOf(s + [x], x) == |s|
  {
    if s != [] {
      assert (s + [x])[1..] == s[1..] + [x];
      IndexOfLast(s[1..], x);
    }
  }

  lemma JoinGrows(n: Network, r: map<Host, nat>, root: Host, j: Host, g: Host)
    requires Grown(n, root) && F.Inv(n, r) && F.Enabled(n, F.Join(j, g))
    ensures Grown(F.Next(n, F.Join(j, g)), root)
  {
    var n2 := F.Next(n, F.Join(j, g));
    var peers := n.nodes[g].peers;
    assert F.NodeOk(n, g);
    assert GrownNode(n, root, g);
    IndexOfLast(peers, j);
    assert n2.nodes[g].peers == peers + [j] && n2.nodes[j] == Node([g], Some(g), peers);
    assert (peers + [j])[..|peers|] == peers;
    forall y ensures GrownNode(n2, root, y) {
      assert GrownNode(n, root, y);
      if y in n.nodes && y != root && n.nodes[y].gateway == Some(g) {
        IndexInPrefix(peers, [j], y);
        assert (peers + [j])[..IndexOf(peers, y)] == peers[..IndexOf(peers, y)];
      }
    }
  }

  ghost predicate JoinsOnly(root: Host, states: seq<Network>, events: seq<F.Event>) {
    F.Run(root, states, events) && forall i | 0 <= i < |events| :: events[i].Join?
  }

  lemma {:induction false} JoinsGrow(root: Host, states: seq<Network>, events: seq<F.Event>, i: nat)
    requires JoinsOnly(root, states, events) && i < |states|
    ensures Grown(states[i], root)
  {
    if i > 0 {
      JoinsGrow(root, states, events, i - 1);
      var r := F.RunKeeps(root, states, events, i - 1);
      JoinGrows(states[i - 1], r, root, events[i - 1].newcomer, events[i - 1].via);
    }
  }

  lemma GrownIsRooted(n: Network, r: map<Host, nat>, root: Host)
    requires Grown(n, root) && F.Inv(n, r)
    ensures Rooted(n, root)
  {
    forall y | y in n.alive ensures GrownNode(n, root, y) && F.NodeOk(n, y) {}
    forall y, z | y in n.alive && y in n.nodes && z in n.nodes[y].peers ensures z in n.alive { assert F.NodeOk(n, y); }
  }

  // -- One death --

  // The root of the survivors.
  function Successor(n0: Network, root: Host, x: Host): Host
    requires x in n0.nodes
  {
    if x == root && n0.nodes[x].peers != [] then n0.nodes[x].peers[0] else root
  }

  // A network of more than one node has a client at the root.
  lemma RootHasClient(n0: Network, r0: map<Host, nat>, root: Host, y: Host)
    requires Grown(n0, root) && F.Inv(n0, r0) && y in n0.nodes && y != root
    ensures n0.nodes[root].peers != [] && F.GatewayIs(n0, n0.nodes[root].peers[0], root)
  {
    GrownIsRooted(n0, r0, root);
    var t := RootedIsTree(n0, r0, root);
    T.RootAbove(t, y);
    var c := T.ChildToward(t, root, y);
    assert T.PeersOf(t, root, PeerLists(n0)[root]) && T.Linked(t, root, c);
    assert c in n0.nodes[root].peers;
    var f := n0.nodes[root].peers[0];
    assert F.NodeOk(n0, root) && f in n0.nodes[root].peers;
    assert F.LinkOk(n0, root, f) && GrownNode(n0, root, root);
  }

  // A client's backups all live, and the first is its gateway's gateway, or the root's first client.
  lemma GrownTarget(n0: Network, r0: map<Host, nat>, root: Host, x: Host, y: Host)
    requires Grown(n0, root) && F.Inv(n0, r0) && x in n0.nodes && F.GatewayIs(n0, y, x)
    ensures n0.nodes[x].peers != [] && y in n0.nodes[x].peers
    ensures Target(n0, x, y) == if x != root then n0.nodes[x].gateway
      else if n0.nodes[x].peers[0] == y then None else Some(n0.nodes[x].peers[0])
    ensures x != root ==> n0.nodes[x].gateway.Some?
  {
    assert GrownNode(n0, root, y) && GrownNode(n0, root, x) && F.NodeOk(n0, x) && F.NodeOk(n0, y);
    var peers := n0.nodes[x].peers;
    var k := IndexOf(peers, y);
    if x != root {
      assert F.RankOk(n0, r0, y, x) && F.RankOk(n0, r0, x, peers[0]);
      assert peers[0] != y;
    }
    if k > 0 {
      assert peers[..k][0] == peers[0];
      assert peers[0] in peers && peers[0] in n0.alive - {x};
    }
  }

  // Every death in a grown network of more than one node can be survived.
  lemma GrownSurvives(n0: Network, r0: map<Host, nat>, root: Host, x: Host)
    requires Grown(n0, root) && F.Inv(n0, r0) && x in n0.nodes && |n0.alive| > 1
    ensures Survives(n0, root, x) && NewRoot(n0, root, x, Successor(n0, root, x))
  {
    forall y | F.GatewayIs(n0, y, x)
      ensures Target(n0, x, y).None? <==> x == root && y == Successor(n0, root, x)
    {
      GrownTarget(n0, r0, root, x, y);
    }
    if x == root {
      assert |n0.alive - {root}| == |n0.alive| - 1;
      var y :| y in n0.alive - {root};
      RootHasClient(n0, r0, root, y);
      assert F.NodeOk(n0, root);
      assert Isolated(n0, x, Successor(n0, root, x));
    }
  }

  /** From any network grown by joins alone, the death of any one node x followed by failover leaves the survivors
      one tree, once every neighbour of x has noticed: all clients of x have moved to x's gateway, or, if x was
      the root, to its first client, and everybody else kept its gateway. */
  lemma SurvivorsAreOneTree(root: Host, joins: seq<Network>, joinEvents: seq<F.Event>, x: Host, states: seq<Network>,
                            events: seq<F.Event>) returns (t: T.Tree)
    requires JoinsOnly(root, joins, joinEvents)
    requires Recovery.Recovery(x, states, events) && states[0] == joins[|joinEvents|] && |states[0].alive| > 1
    requires Complete(states[|events|], x)
    ensures var n0, n := states[0], states[|events|];
      && x in n0.nodes && IsTreeOf(n, t) && n.alive == n0.alive - {x} && t.root == Successor(n0, root, x)
      && (forall y | y in t.parent :: y in n0.nodes && n0.nodes[x].peers != [] &&
            Some(t.parent[y]) == if !F.GatewayIs(n0, y, x) then n0.nodes[y].gateway
                                 else if x != root then n0.nodes[x].gateway else Some(n0.nodes[x].peers[0]))
      && T.ValidNet(T.NetOf(t, PeerLists(n)))
  {
    var n0, n := states[0], states[|events|];
    assert F.Enabled(states[0], events[0]);
    JoinsGrow(root, joins, joinEvents, |joinEvents|);
    var r0 := F.RunKeeps(root, joins, joinEvents, |joinEvents|);
    GrownIsRooted(n0, r0, root);
    GrownSurvives(n0, r0, root, x);
    var top := Successor(n0, root, x);
    var r := RecoveredIff(root, joins, joinEvents, root, x, states, events);
    assert Rooted(n, top);
    t := RootedIsTree(n, r, top);
    forall y | y in t.parent
      ensures y in n0.nodes && n0.nodes[x].peers != []
      ensures Some(t.parent[y]) == if !F.GatewayIs(n0, y, x) then n0.nodes[y].gateway
                                   else if x != root then n0.nodes[x].gateway else Some(n0.nodes[x].peers[0])
    {
      if F.GatewayIs(n0, y, x) { GrownTarget(n0, r0, root, x, y); }
      HasPeers(n0, r0, root, x);
    }
  }

  // In a network of more than one node everybody has a peer.
  lemma HasPeers(n0: Network, r0: map<Host, nat>, root: Host, x: Host)
    requires Grown(n0, root) && F.Inv(n0, r0) && x in n0.nodes && |n0.alive| > 1
    ensures n0.nodes[x].peers != []
  {
    assert GrownNode(n0, root, x);
    if x == root {
      assert |n0.alive - {root}| == |n0.alive| - 1;
      var y :| y in n0.alive - {root};
      RootHasClient(n0, r0, root, y);
    }
  }

  lemma RecoveredNet(start: Host, past: seq<Network>, pastEvents: seq<F.Event>, root: Host, x: Host,
                     states: seq<Network>, events: seq<F.Event>) returns (net: T.Net)
    requires F.Run(start, past, pastEvents) && states != [] && past[|pastEvents|] == states[0]
    requires Rooted(states[0], root) && Recovery.Recovery(x, states, events) && Complete(states[|events|], x)
    requires Survives(states[0], root, x)
    ensures T.ValidNet(net) && net.nodes == states[|events|].alive && net.peers == PeerLists(states[|events|])
  {
    var r := RecoveredIff(start, past, pastEvents, root, x, states, events);
    net := TreeNet(states[|events|], r);
  }

  lemma TreeNet(n: Network, r: map<Host, nat>) returns (net: T.Net)
    requires F.Inv(n, r) && Quiet(n) && OneTree(n)
    ensures T.ValidNet(net) && net.nodes == n.alive && net.peers == PeerLists(n)
  {
    OneTreeIff(n, r);
    var root :| Rooted(n, root);
    var t := RootedIsTree(n, r, root);
    net := T.NetOf(t, PeerLists(n));
  }

  /** Failover restores exactly-once delivery: in every reachable tree network, after a death that can be survived and
      its recovery, a broadcast is processed exactly once by every survivor, whatever the interleaving. */
  lemma BroadcastAfterRecovery(start: Host, past: seq<Network>, pastEvents: seq<F.Event>, root: Host, x: Host,
                               states: seq<Network>, events: seq<F.Event>, origin: Host, flood: seq<Flood.State>,
                               choices: seq<nat>)
    returns (net: T.Net)
    requires F.Run(start, past, pastEvents) && states != [] && past[|pastEvents|] == states[0]
    requires Rooted(states[0], root) && Recovery.Recovery(x, states, events) && Complete(states[|events|], x)
    requires Survives(states[0], root, x) && origin in states[|events|].alive
    ensures T.ValidNet(net) && net.nodes == states[|events|].alive && net.peers == PeerLists(states[|events|])
    ensures origin in net.peers
    ensures Flood.Run(net, UnspecifiedV6, flood, choices) &&
            flood[0] == Flood.Start(net, origin, UnspecifiedV6, true) && flood[|choices|].flight == [] ==>
              flood[|choices|].got == multiset(states[|events|].alive)
  {
    net := RecoveredNet(start, past, pastEvents, root, x, states, events);
    if Flood.Run(net, UnspecifiedV6, flood, choices) && flood[0] == Flood.Start(net, origin, UnspecifiedV6, true) {
      Flood.BroadcastExactlyOnce(net, origin, UnspecifiedV6, true, flood, choices);
    }
  }
}
