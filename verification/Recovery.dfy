/** The death of one node in any reachable network whose gateways form a tree: after failover the survivors form a tree
    if and only if the dead node's clients had live backups, all of them or, if it was the root, all but one. */
module Recovery {
  import opened Wrappers
  import opened Routing
  import opened PeerManager
  import F = Failover
  import T = PeerTree

  type Network = F.Network

  // -- Networks whose gateways form one tree --

  // All nodes but the root have a live gateway, and no node lists a dead peer.
  ghost predicate Rooted(n: Network, root: Host) {
    && root in n.alive
    && (forall y | y in n.alive && y in n.nodes ::
          if y == root then n.nodes[y].gateway == None
          else n.nodes[y].gateway.Some? && n.nodes[y].gateway.value in n.alive)
    && (forall y, z | y in n.alive && y in n.nodes && z in n.nodes[y].peers :: z in n.alive)
  }

  function PeerLists(n: Network): map<Host, seq<Host>> { map y | y in n.alive && y in n.nodes :: n.nodes[y].peers }

  /** Such a network is one tree, in which every node's peers are exactly its neighbours. */
  lemma RootedIsTree(n: Network, r: map<Host, nat>, root: Host) returns (t: T.Tree)
    requires F.Inv(n, r) && Rooted(n, root)
    ensures T.Valid(t) && t.nodes == n.alive && t.root == root
    ensures forall y | y in t.parent :: F.GatewayIs(n, y, t.parent[y])
    ensures PeerLists(n).Keys == t.nodes && forall v | v in t.nodes :: T.PeersOf(t, v, PeerLists(n)[v])
    ensures T.ValidNet(T.NetOf(t, PeerLists(n)))
  {
    var parent := map y | y in n.alive && y != root :: n.nodes[y].gateway.value;
    t := T.Tree(n.alive, root, parent, map y | y in n.alive :: r[y]);
    forall x | x in t.parent ensures t.parent[x] in t.nodes && t.rank[t.parent[x]] < t.rank[x] {
      assert F.RankOk(n, r, x, t.parent[x]);
    }
    forall v | v in t.nodes ensures v in PeerLists(n) && T.PeersOf(t, v, PeerLists(n)[v]) { RootedPeers(n, r, root, t, v); }
    T.TreeIsNet(t, PeerLists(n));
  }

  lemma RootedPeers(n: Network, r: map<Host, nat>, root: Host, t: T.Tree, v: Host)
    requires F.Inv(n, r) && Rooted(n, root) && T.Valid(t) && t.nodes == n.alive && v in n.alive
    requires forall y, z :: y in t.parent && t.parent[y] == z <==> y in n.alive && F.GatewayIs(n, y, z)
    ensures v in n.nodes && T.PeersOf(t, v, n.nodes[v].peers)
  {
    assert F.NodeOk(n, v);
    forall w ensures w in n.nodes[v].peers <==> w in t.nodes && T.Linked(t, v, w) { assert F.LinkOk(n, v, w); }
  }

  // The survivors are one tree: each one's peers are its neighbours in some tree of all of them.
  ghost predicate OneTree(n: Network) {
    exists t: T.Tree :: IsTreeOf(n, t)
  }

  ghost predicate IsTreeOf(n: Network, t: T.Tree) {
    && T.Valid(t) && t.nodes == n.alive && PeerLists(n).Keys == t.nodes
    && forall v | v in t.nodes :: T.PeersOf(t, v, PeerLists(n)[v])
  }

  // Everyone has noticed the deaths so far: gateways and peers are live.
  ghost predicate Quiet(n: Network) {
    && (forall y | y in n.alive && y in n.nodes && n.nodes[y].gateway.Some? :: n.nodes[y].gateway.value in n.alive)
    && (forall y, z | y in n.alive && y in n.nodes && z in n.nodes[y].peers :: z in n.alive)
  }

  // Where the gateway pointers of a quiet network lead.
  ghost function Head(n: Network, r: map<Host, nat>, y: Host): (h: Host)
    requires F.Inv(n, r) && Quiet(n) && y in n.alive
    ensures h in n.alive && h in n.nodes && n.nodes[h].gateway == None
    decreases r[y]
  {
    if n.nodes[y].gateway.None? then y
    else
      assert F.RankOk(n, r, y, n.nodes[y].gateway.value);
      Head(n, r, n.nodes[y].gateway.value)
  }

  lemma HeadStep(n: Network, r: map<Host, nat>, y: Host, p: Host)
    requires F.Inv(n, r) && Quiet(n) && y in n.alive && p in n.alive && F.GatewayIs(n, y, p)
    ensures Head(n, r, y) == Head(n, r, p)
  {
  }

  lemma TreeLink(n: Network, r: map<Host, nat>, t: T.Tree, y: Host)
    requires F.Inv(n, r) && IsTreeOf(n, t) && y in t.parent
    ensures t.parent[y] in n.alive && (F.GatewayIs(n, y, t.parent[y]) || F.GatewayIs(n, t.parent[y], y))
  {
    assert T.PeersOf(t, y, PeerLists(n)[y]) && T.Linked(t, y, t.parent[y]);
    assert F.LinkOk(n, y, t.parent[y]);
  }

  // All nodes of a tree have the same head, because neighbours do.
  lemma {:induction false} SameHead(n: Network, r: map<Host, nat>, t: T.Tree, y: Host)
    requires F.Inv(n, r) && Quiet(n) && IsTreeOf(n, t) && y in t.nodes
    ensures Head(n, r, y) == Head(n, r, t.root)
    decreases t.rank[y]
  {
    if y != t.root {
      var p := t.parent[y];
      SameHead(n, r, t, p);
      TreeLink(n, r, t, y);
      if F.GatewayIs(n, y, p) { HeadStep(n, r, y, p); } else { HeadStep(n, r, p, y); }
    }
  }

  /** A quiet network is one tree if and only if exactly one live node has no gateway. */
  lemma OneTreeIff(n: Network, r: map<Host, nat>)
    requires F.Inv(n, r) && Quiet(n)
    ensures OneTree(n) <==> exists root :: Rooted(n, root)
  {
    if OneTree(n) {
      var t :| IsTreeOf(n, t);
      forall y | y in n.alive && n.nodes[y].gateway == None ensures y == Head(n, r, t.root) { SameHead(n, r, t, y); }
      assert Rooted(n, Head(n, r, t.root));
    }
    if exists root :: Rooted(n, root) {
      var root :| Rooted(n, root);
      var t := RootedIsTree(n, r, root);
      assert IsTreeOf(n, t);
    }
  }

  // -- One death --

  function FirstLive(backups: seq<Host>, alive: set<Host>): (b: Option<Host>)
    ensures b.Some? ==> b.value in backups && b.value in alive
    ensures b.None? <==> forall c | c in backups :: c !in alive
  {
    if backups == [] then None else if backups[0] in alive then Some(backups[0]) else FirstLive(backups[1..], alive)
  }

  // The gateway each client of x ends up with: its first backup that survives.
  function Target(n0: Network, x: Host, y: Host): Option<Host>
    requires y in n0.nodes
  {
    FirstLive(n0.nodes[y].backups, n0.alive - {x})
  }

  // A client of x without a surviving backup.
  predicate Isolated(n0: Network, x: Host, y: Host) {
    y in n0.alive && F.GatewayIs(n0, y, x) && Target(n0, x, y).None?
  }

  // x can die without splitting the network.
  ghost predicate Survives(n0: Network, root: Host, x: Host) {
    if x != root then forall y :: !Isolated(n0, x, y)
    else exists y :: Isolated(n0, x, y) && forall z :: Isolated(n0, x, z) ==> z == y
  }

  // x is dead; each survivor either kept its gateway, or was x's client and has not noticed or has moved.
  ghost predicate SurvivorOk(n0: Network, x: Host, n: Network, y: Host) {
    y in n.alive ==>
      && y in n.nodes && y in n0.nodes
      && (forall z | z in n.nodes[y].peers :: z in n.alive || z == x)
      && (if n0.nodes[y].gateway != Some(x) then n.nodes[y].gateway == n0.nodes[y].gateway
          else if x in n.nodes[y].peers then
            n.nodes[y].gateway == Some(x) && FirstLive(n.nodes[y].backups, n.alive) == Target(n0, x, y)
          else n.nodes[y].gateway == Target(n0, x, y))
  }

  ghost predicate Recovering(n0: Network, x: Host, n: Network) {
    n.alive == n0.alive - {x} && forall y :: SurvivorOk(n0, x, n, y)
  }

  lemma {:induction false} FirstLivePast(backups: seq<Host>, alive: set<Host>, k: nat)
    requires k <= |backups| && forall i | 0 <= i < k :: backups[i] !in alive
    ensures FirstLive(backups, alive) == FirstLive(backups[k..], alive)
    decreases k
  {
    if k == 0 {
      assert backups[0..] == backups;
    } else {
      FirstLivePast(backups[1..], alive, k - 1);
      assert backups[1..][k - 1..] == backups[k..];
    }
  }

  // Erasing a dead host anywhere does not change the first live one.
  lemma {:induction false} FirstLiveErase(backups: seq<Host>, alive: set<Host>, k: nat)
    requires k < |backups| && backups[k] !in alive
    ensures FirstLive(EraseAt(backups, k), alive) == FirstLive(backups, alive)
    decreases k
  {
    if k == 0 {
      assert EraseAt(backups, 0) == backups[1..];
    } else {
      assert EraseAt(backups, k) == [backups[0]] + EraseAt(backups[1..], k - 1);
      FirstLiveErase(backups[1..], alive, k - 1);
    }
  }

  lemma {:induction false} ForgetKeepsFirst(backups: seq<Host>, alive: set<Host>, x: Host, i: nat)
    requires i <= |backups| && x !in alive
    ensures FirstLive(ForgetFrom(backups, x, i), alive) == FirstLive(backups, alive)
    decreases |backups| - i
  {
    if i < |backups| {
      if backups[i] == x {
        FirstLiveErase(backups, alive, i);
        var rest := EraseAt(backups, i);
        if i < |rest| { ForgetKeepsFirst(rest, alive, x, i + 1); }
      } else {
        ForgetKeepsFirst(backups, alive, x, i + 1);
      }
    }
  }

  // Every live backup can be connected to.
  predicate AllReachable(n: Network, e: F.Event) {
    e.Lose? && e.host in n.nodes ==>
      forall k | 0 <= k < |n.nodes[e.host].backups| && n.nodes[e.host].backups[k] in n.alive :: k in e.ok
  }

  ghost predicate RecoveryStep(n: Network, x: Host, e: F.Event) {
    F.Enabled(n, e) && AllReachable(n, e) && ((e.Lose? && e.lost == x) || (e.Forget? && e.gone == x))
  }

  lemma ForgetterStays(n0: Network, x: Host, n: Network, e: F.Event)
    requires Recovering(n0, x, n) && RecoveryStep(n, x, e) && e.Forget?
    ensures SurvivorOk(n0, x, F.Next(n, e), e.host)
  {
    assert SurvivorOk(n0, x, n, e.host);
    ForgetKeepsFirst(n.nodes[e.host].backups, n.alive, x, 0);
  }

  // The node that notices the death ends up with its target and without the dead peer.
  lemma LoserMoves(n0: Network, x: Host, n: Network, r: map<Host, nat>, e: F.Event)
    requires F.Inv(n, r) && Recovering(n0, x, n) && RecoveryStep(n, x, e) && e.Lose?
    ensures SurvivorOk(n0, x, F.Next(n, e), e.host)
  {
    var y := e.host;
    var node := n.nodes[y];
    assert SurvivorOk(n0, x, n, y) && F.NodeOk(n, y);
    F.EraseKeeps(node.peers, x);
    if node.gateway == Some(x) {
      var k := FirstReachable(node.backups, e.ok, 0);
      forall i | 0 <= i < k ensures node.backups[i] !in n.alive { assert i !in e.ok; }
      FirstLivePast(node.backups, n.alive, k);
      if k < |node.backups| {
        assert node.backups[k] in n.alive && F.RankOk(n, r, y, node.backups[k]);
      }
    }
  }

  lemma RecoveryKeeps(n0: Network, x: Host, n: Network, r: map<Host, nat>, e: F.Event)
    requires F.Inv(n, r) && Recovering(n0, x, n) && RecoveryStep(n, x, e)
    ensures Recovering(n0, x, F.Next(n, e))
  {
    var y, n2 := e.host, F.Next(n, e);
    assert SurvivorOk(n0, x, n, y) && F.NodeOk(n, y);
    forall z ensures SurvivorOk(n0, x, n2, z) {
      assert SurvivorOk(n0, x, n, z);
      if z == y {
        if e.Lose? { LoserMoves(n0, x, n, r, e); } else { ForgetterStays(n0, x, n, e); }
      }
    }
  }

  /** A recovery: node x dies, then its neighbours notice, in any order, mixed with disconnect notices; the connections
      they try to live backups succeed. */
  ghost predicate Recovery(x: Host, states: seq<Network>, events: seq<F.Event>) {
    && |states| == |events| + 1 && |events| > 0
    && events[0] == F.Die(x)
    && (forall i | 0 <= i < |events| :: F.Enabled(states[i], events[i]) && states[i + 1] == F.Next(states[i], events[i]))
    && (forall i | 1 <= i < |events| :: RecoveryStep(states[i], x, events[i]))
  }

  lemma {:induction false} RecoveryRun(r0: map<Host, nat>, x: Host, states: seq<Network>, events: seq<F.Event>, i: nat)
    returns (r: map<Host, nat>)
    requires Recovery(x, states, events) && F.Inv(states[0], r0) && Quiet(states[0]) && 1 <= i < |states|
    ensures F.Inv(states[i], r) && Recovering(states[0], x, states[i])
  {
    var n0 := states[0];
    if i == 1 {
      r := F.DieKeeps(n0, r0, x);
      forall y ensures SurvivorOk(n0, x, states[1], y) {
        if y in states[1].alive { assert F.LinkOk(n0, y, x) && F.NodeOk(n0, y); }
      }
    } else {
      var r1 := RecoveryRun(r0, x, states, events, i - 1);
      assert RecoveryStep(states[i - 1], x, events[i - 1]);
      r := F.NextKeeps(states[i - 1], r1, events[i - 1]);
      RecoveryKeeps(n0, x, states[i - 1], r1, events[i - 1]);
    }
  }

  // No survivor still lists x.
  ghost predicate Complete(n: Network, x: Host) { forall y | y in n.alive && y in n.nodes :: x !in n.nodes[y].peers }

  lemma SurvivorsRooted(n0: Network, root: Host, x: Host, n: Network)
    requires Rooted(n0, root) && Recovering(n0, x, n) && Complete(n, x) && n0.alive <= n0.nodes.Keys && x in n0.alive
    ensures Quiet(n)
    ensures forall top :: Rooted(n, top) <==>
      top in n.alive && (forall y | y in n.alive :: y == top <==> y == root || Isolated(n0, x, y))
  {
    forall y | y in n.alive
      ensures y in n.nodes && (n.nodes[y].gateway == None <==> y == root || Isolated(n0, x, y))
      ensures n.nodes[y].gateway.Some? ==> n.nodes[y].gateway.value in n.alive
      ensures forall z | z in n.nodes[y].peers :: z in n.alive
    {
      assert SurvivorOk(n0, x, n, y);
    }
  }

  // The root of the survivors, if they have one.
  ghost predicate NewRoot(n0: Network, root: Host, x: Host, top: Host) {
    if x != root then top == root else Isolated(n0, x, top)
  }

  /** From every reachable network that is a tree with the given root, the death of x followed by its complete recovery
      leaves the survivors one tree if and only if either x was not the root and each of its clients had a surviving
      backup, or x was the root and exactly one of its clients had none. The clients move to their first surviving
      backups, and everybody else keeps its gateway. */
  lemma RecoveredIff(start: Host, past: seq<Network>, pastEvents: seq<F.Event>, root: Host, x: Host, states: seq<Network>,
                     events: seq<F.Event>) returns (r: map<Host, nat>)
    requires F.Run(start, past, pastEvents) && states != [] && past[|pastEvents|] == states[0]
    requires Rooted(states[0], root) && Recovery(x, states, events) && Complete(states[|events|], x)
    ensures var n0, n := states[0], states[|events|];
      && F.Inv(n, r) && Quiet(n) && n.alive == n0.alive - {x}
      && (OneTree(n) <==> Survives(n0, root, x))
      && (forall top :: Rooted(n, top) <==> Survives(n0, root, x) && NewRoot(n0, root, x, top))
      && forall y | y in n.alive :: y in n.nodes && y in n0.nodes &&
           n.nodes[y].gateway == if F.GatewayIs(n0, y, x) then Target(n0, x, y) else n0.nodes[y].gateway
  {
    var n0, n := states[0], states[|events|];
    var r0 := F.RunKeeps(start, past, pastEvents, |pastEvents|);
    r := RecoveryRun(r0, x, states, events, |events|);
    assert F.Enabled(states[0], events[0]);
    SurvivorsRooted(n0, root, x, n);
    OneTreeIff(n, r);
    forall y | y in n.alive ensures y in n.nodes && y in n0.nodes &&
      n.nodes[y].gateway == if F.GatewayIs(n0, y, x) then Target(n0, x, y) else n0.nodes[y].gateway
    {
      assert SurvivorOk(n0, x, n, y);
    }
    assert F.NodeOk(n0, x);
    RootsAre(n0, root, x, n);
    if Survives(n0, root, x) {
      if x != root {
        assert Rooted(n, root);
      } else {
        var y :| Isolated(n0, x, y) && forall z :: Isolated(n0, x, z) ==> z == y;
        assert Rooted(n, y);
      }
    }
  }

  lemma RootsAre(n0: Network, root: Host, x: Host, n: Network)
    requires Rooted(n0, root) && n.alive == n0.alive - {x} && x in n0.alive && n0.alive <= n0.nodes.Keys
    requires !F.GatewayIs(n0, x, x)
    requires forall top :: Rooted(n, top) <==>
      top in n.alive && (forall y | y in n.alive :: y == top <==> y == root || Isolated(n0, x, y))
    ensures forall top :: Rooted(n, top) <==> Survives(n0, root, x) && NewRoot(n0, root, x, top)
  {
    assert !Isolated(n0, x, root);
    forall top ensures Rooted(n, top) <==> Survives(n0, root, x) && NewRoot(n0, root, x, top) {
      forall y | Isolated(n0, x, y) ensures y in n.alive { }
      if x != root {
        if Rooted(n, top) {
          assert root in n.alive;
          forall y ensures !Isolated(n0, x, y) { }
        }
      } else if Rooted(n, top) {
        assert Isolated(n0, x, top);
      }
    }
  }

  // -- Any number of deaths --

  // A stretch of a run in which nodes join and learn of deaths, but nobody dies.
  lemma {:induction false} GrowthKeeps(start: Host, states: seq<Network>, events: seq<F.Event>, root: Host, a: nat, b: nat)
    requires F.Run(start, states, events) && a <= b <= |events| && Rooted(states[a], root)
    requires forall i | a <= i < b :: events[i].Join? || events[i].Forget?
    ensures Rooted(states[b], root)
    decreases b
  {
    if a < b {
      GrowthKeeps(start, states, events, root, a, b - 1);
      var r := F.RunKeeps(start, states, events, b - 1);
      GrowthStep(states[b - 1], r, root, events[b - 1]);
    }
  }

  lemma GrowthStep(n: Network, r: map<Host, nat>, root: Host, e: F.Event)
    requires F.Inv(n, r) && Rooted(n, root) && F.Enabled(n, e) && (e.Join? || e.Forget?)
    ensures Rooted(F.Next(n, e), root)
  {
  }

  // How a stretch of a run from a to b goes: growth, or the death of one node and its complete recovery.
  datatype Stretch = Growth | Death(x: Host)

  ghost predicate Goes(states: seq<Network>, events: seq<F.Event>, a: nat, b: nat, s: Stretch)
    requires |states| == |events| + 1
  {
    a <= b <= |events| &&
    match s
    case Growth => forall i | a <= i < b :: events[i].Join? || events[i].Forget?
    case Death(x) => Recovery(x, states[a..b + 1], events[a..b]) && Complete(states[b], x)
  }

  // A run cut into stretches.
  ghost predicate Stretches(start: Host, states: seq<Network>, events: seq<F.Event>, cuts: seq<nat>, kinds: seq<Stretch>) {
    && F.Run(start, states, events) && |cuts| == |kinds| + 1 && cuts[0] == 0
    && (forall i | 0 <= i < |cuts| :: cuts[i] <= |events|)
    && forall i | 0 <= i < |kinds| :: Goes(states, events, cuts[i], cuts[i + 1], kinds[i])
  }

  // The network is a tree that survives the stretch.
  ghost predicate StretchOk(n: Network, s: Stretch) {
    exists root :: Rooted(n, root) && (s.Death? ==> Survives(n, root, s.x))
  }

  /** Over any number of deaths, each followed by its complete recovery, with joins and notices in between, the live
      nodes are one tree after every stretch up to k if and only if every death up to k could be survived by the tree it
      met. */
  lemma {:induction false} ManyDeathsIff(start: Host, states: seq<Network>, events: seq<F.Event>, cuts: seq<nat>,
                                         kinds: seq<Stretch>, k: nat)
    requires Stretches(start, states, events, cuts, kinds) && k <= |kinds|
    ensures (forall i | 0 <= i <= k :: OneTree(states[cuts[i]]))
       <==> forall i | 0 <= i < k :: StretchOk(states[cuts[i]], kinds[i])
    ensures (forall i | 0 <= i < k :: StretchOk(states[cuts[i]], kinds[i])) ==>
      exists root :: Rooted(states[cuts[k]], root)
  {
    if k == 0 {
      var r := F.RunKeeps(start, states, events, 0);
      assert Rooted(states[0], start);
      OneTreeIff(states[0], r);
    } else {
      ManyDeathsIff(start, states, events, cuts, kinds, k - 1);
      var n := states[cuts[k - 1]];
      if exists root :: Rooted(n, root) {
        var root :| Rooted(n, root);
        StretchIff(start, states, events, cuts[k - 1], cuts[k], kinds[k - 1], root);
      }
    }
  }

  lemma OneRoot(n: Network, root: Host, other: Host)
    requires Rooted(n, root) && Rooted(n, other) && other in n.nodes
    ensures other == root
  {
  }

  lemma StretchIff(start: Host, states: seq<Network>, events: seq<F.Event>, a: nat, b: nat, s: Stretch, root: Host)
    requires F.Run(start, states, events) && Goes(states, events, a, b, s) && Rooted(states[a], root)
    ensures OneTree(states[b]) <==> StretchOk(states[a], s)
    ensures StretchOk(states[a], s) ==> exists next :: Rooted(states[b], next)
  {
    match s
    case Growth =>
      GrowthKeeps(start, states, events, root, a, b);
      var r := F.RunKeeps(start, states, events, b);
      OneTreeIff(states[b], r);
      assert StretchOk(states[a], s) by { assert Rooted(states[a], root); }
    case Death(x) =>
      DeathIff(start, states, events, a, b, x, root);
      OnlyRoot(start, states, events, a, x, root);
  }

  lemma OnlyRoot(start: Host, states: seq<Network>, events: seq<F.Event>, a: nat, x: Host, root: Host)
    requires F.Run(start, states, events) && a < |states| && Rooted(states[a], root)
    ensures StretchOk(states[a], Death(x)) <==> Survives(states[a], root, x)
  {
    var r := F.RunKeeps(start, states, events, a);
    if StretchOk(states[a], Death(x)) {
      var other :| Rooted(states[a], other) && Survives(states[a], other, x);
      assert F.NodeOk(states[a], other);
      OneRoot(states[a], root, other);
    }
  }

  lemma DeathIff(start: Host, states: seq<Network>, events: seq<F.Event>, a: nat, b: nat, x: Host, root: Host)
    requires F.Run(start, states, events) && Goes(states, events, a, b, Death(x)) && Rooted(states[a], root)
    ensures OneTree(states[b]) <==> Survives(states[a], root, x)
    ensures Survives(states[a], root, x) ==> exists next :: Rooted(states[b], next)
  {
    var past, pastEvents := states[..a + 1], events[..a];
    assert F.Run(start, past, pastEvents);
    var r := RecoveredIff(start, past, pastEvents, root, x, states[a..b + 1], events[a..b]);
    OneTreeIff(states[b], r);
  }
}
