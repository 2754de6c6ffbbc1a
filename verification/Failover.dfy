/** Gateways and backups over every run of joins, node deaths, failovers and disconnect notices, in any order.
    A step of one node is atomic; a connection attempt and the acceptance with its connect message are one step. */
module Failover {
  import opened Wrappers
  import opened Routing
  import opened PeerManager

  datatype Network = Network(alive: set<Host>, nodes: map<Host, Node>)

  datatype Event =
    | Join(newcomer: Host, via: Host)                // a new node connects to a live gateway
    | Die(host: Host)
    | Lose(host: Host, lost: Host, ok: set<nat>)     // a live node notices a dead peer and may fail over
    | Forget(host: Host, gone: Host)                 // a live node learns that a node died

  // Only live hosts can be connected to.
  predicate Plausible(n: Network, node: Node, ok: set<nat>) {
    forall k | k in ok && k < |node.backups| :: node.backups[k] in n.alive
  }

  predicate Enabled(n: Network, e: Event) {
    match e
    case Join(j, g) => j !in n.nodes && g in n.alive && g in n.nodes
    case Die(x) => x in n.alive
    case Lose(y, x, ok) =>
      y in n.alive && y in n.nodes && x !in n.alive && x in n.nodes[y].peers && Plausible(n, n.nodes[y], ok)
    case Forget(y, x) => y in n.alive && y in n.nodes && x !in n.alive
  }

  // b accepts y, and y stores the backups that b sends.
  function Connect(n: Network, y: Host, b: Host): Network
    requires y in n.nodes && b in n.nodes && y != b
  {
    var backups := n.nodes[b].peers;
    n.(nodes := n.nodes[b := n.nodes[b].(peers := backups + [y])][y := n.nodes[y].(backups := backups)])
  }

  function Next(n: Network, e: Event): Network
    requires Enabled(n, e)
  {
    match e
    case Join(j, g) => Connect(Network(n.alive + {j}, n.nodes[j := Node([g], Some(g), [])]), j, g)
    case Die(x) => n.(alive := n.alive - {x})
    case Lose(y, x, ok) =>
      var node := LoseLink(n.nodes[y], x, ok);
      var n1 := n.(nodes := n.nodes[y := node]);
      if n.nodes[y].gateway == Some(x) && node.gateway.Some? && node.gateway.value in n.nodes && node.gateway.value != y
      then Connect(n1, y, node.gateway.value) else n1
    case Forget(y, x) =>
      n.(nodes := n.nodes[y := n.nodes[y].(backups := ForgetFrom(n.nodes[y].backups, x, 0))])
  }

  // The first node of a network has no gateway.
  function Founded(root: Host): Network { Network({root}, map[root := Node([], None, [])]) }

  // -- The invariant --

  predicate GatewayIs(n: Network, y: Host, g: Host) { y in n.nodes && n.nodes[y].gateway == Some(g) }

  // y is live and its gateway is dead, which y has not dealt with yet.
  predicate Orphan(n: Network, y: Host) {
    y in n.alive && y in n.nodes && n.nodes[y].gateway.Some? && n.nodes[y].gateway.value !in n.alive
  }

  // b stands before y in g's list of peers.
  predicate Before(n: Network, g: Host, b: Host, y: Host) {
    g in n.nodes && exists i, j | 0 <= i < j < |n.nodes[g].peers| :: n.nodes[g].peers[i] == b && n.nodes[g].peers[j] == y
  }

  // A live pair of nodes is linked exactly when one is the other's gateway.
  ghost predicate LinkOk(n: Network, y: Host, z: Host) {
    y in n.alive && z in n.alive && y in n.nodes ==>
      (z in n.nodes[y].peers <==> GatewayIs(n, y, z) || GatewayIs(n, z, y))
  }

  // A live backup of a node with a live gateway is that gateway's gateway, or a client it accepted earlier.
  ghost predicate BackupOk(n: Network, y: Host, b: Host) {
    y in n.alive && y in n.nodes && b in n.alive && b in n.nodes[y].backups && n.nodes[y].gateway.Some? ==>
      var g := n.nodes[y].gateway.value;
      g in n.alive ==> GatewayIs(n, g, b) || (GatewayIs(n, b, g) && Before(n, g, b, y))
  }

  ghost predicate NodeOk(n: Network, y: Host) {
    y in n.nodes ==>
      && NoDuplicates(n.nodes[y].peers) && NoDuplicates(n.nodes[y].backups)
      && (forall z | z in n.nodes[y].peers :: z in n.nodes && z != y)
      && (forall z | z in n.nodes[y].backups :: z in n.nodes)
      && (n.nodes[y].gateway.Some? ==> n.nodes[y].gateway.value in n.nodes && n.nodes[y].gateway.value != y)
  }

  // Ranks grow from gateways to clients, and from the live backups of an orphan to the orphan.
  ghost predicate RankOk(n: Network, r: map<Host, nat>, y: Host, z: Host)
    requires r.Keys == n.nodes.Keys
  {
    var leadsTo := y in n.nodes && (GatewayIs(n, y, z) || (Orphan(n, y) && z in n.nodes[y].backups));
    y in n.alive && z in n.alive && z in n.nodes && leadsTo ==> r[z] < r[y]
  }

  ghost predicate Ranked(n: Network, r: map<Host, nat>) {
    r.Keys == n.nodes.Keys && forall y, z :: RankOk(n, r, y, z)
  }

  ghost predicate Inv(n: Network, r: map<Host, nat>) {
    && n.alive <= n.nodes.Keys
    && (forall y :: NodeOk(n, y))
    && (forall y, z :: LinkOk(n, y, z))
    && (forall y, b :: BackupOk(n, y, b))
    && Ranked(n, r)
  }

  lemma FoundedOk(root: Host)
    ensures Inv(Founded(root), map[root := 0])
  {
  }

  // -- Joining --

  lemma SomeBound(r: map<Host, nat>) returns (k: nat)
    ensures forall y | y in r :: r[y] < k
    decreases |r|
  {
    if r == map[] {
      k := 0;
    } else {
      var y :| y in r;
      var rest := r - {y};
      var k1 := SomeBound(rest);
      k := if k1 <= r[y] then r[y] + 1 else k1;
      forall z | z in r ensures r[z] < k { if z != y { assert z in rest; } }
    }
  }

  lemma BeforeAppend(n: Network, n2: Network, g: Host, b: Host, y: Host)
    requires g in n.nodes && g in n2.nodes && n.nodes[g].peers <= n2.nodes[g].peers
    ensures Before(n, g, b, y) ==> Before(n2, g, b, y)
  {
    if Before(n, g, b, y) {
      var i, j :| 0 <= i < j < |n.nodes[g].peers| && n.nodes[g].peers[i] == b && n.nodes[g].peers[j] == y;
      assert n2.nodes[g].peers[i] == b && n2.nodes[g].peers[j] == y;
    }
  }

  lemma JoinBackup(n: Network, r: map<Host, nat>, j: Host, g: Host, y: Host, b: Host)
    requires Inv(n, r) && Enabled(n, Join(j, g))
    ensures BackupOk(Next(n, Join(j, g)), y, b)
  {
    var n2 := Next(n, Join(j, g));
    assert BackupOk(n, y, b) && NodeOk(n, y);
    if y == j && b in n.nodes[g].peers {
      assert LinkOk(n, g, b);
      var i :| 0 <= i < |n.nodes[g].peers| && n.nodes[g].peers[i] == b;
      assert n2.nodes[g].peers[i] == b && n2.nodes[g].peers[|n.nodes[g].peers|] == j;
    } else if y in n.nodes && n.nodes[y].gateway.Some? {
      var gy := n.nodes[y].gateway.value;
      BeforeAppend(n, n2, gy, b, y);
      assert NodeOk(n, b);
    }
  }

  lemma JoinKeeps(n: Network, r: map<Host, nat>, j: Host, g: Host) returns (r2: map<Host, nat>)
    requires Inv(n, r) && Enabled(n, Join(j, g))
    ensures Inv(Next(n, Join(j, g)), r2)
  {
    var k := SomeBound(r);
    r2 := r[j := k];
    var n2 := Next(n, Join(j, g));
    forall y ensures NodeOk(n2, y) { assert NodeOk(n, y) && NodeOk(n, g); }
    forall y, z ensures LinkOk(n2, y, z) { assert LinkOk(n, y, z) && NodeOk(n, y) && NodeOk(n, z); }
    forall y, b ensures BackupOk(n2, y, b) { JoinBackup(n, r, j, g, y, b); }
    forall y, z ensures RankOk(n2, r2, y, z) { assert RankOk(n, r, y, z) && NodeOk(n, y); }
  }

  // -- Disconnect notices --

  lemma {:induction false} ForgetDistinct(backups: seq<Host>, gone: Host, i: nat)
    requires i <= |backups| && NoDuplicates(backups)
    ensures NoDuplicates(ForgetFrom(backups, gone, i))
    decreases |backups| - i
  {
    if i < |backups| {
      if backups[i] == gone {
        var rest := EraseAt(backups, i);
        if i < |rest| { ForgetDistinct(rest, gone, i + 1); }
      } else {
        ForgetDistinct(backups, gone, i + 1);
      }
    }
  }

  lemma NoticeKeeps(n: Network, r: map<Host, nat>, y: Host, x: Host)
    requires Inv(n, r) && Enabled(n, Forget(y, x))
    ensures Inv(Next(n, Forget(y, x)), r)
  {
    var n2 := Next(n, Forget(y, x));
    assert NodeOk(n, y);
    ForgetFromIff(n.nodes[y].backups, x, 0);
    ForgetDistinct(n.nodes[y].backups, x, 0);
    forall z ensures NodeOk(n2, z) { assert NodeOk(n, z); }
    forall z, w ensures LinkOk(n2, z, w) { assert LinkOk(n, z, w); }
    forall z, b ensures BackupOk(n2, z, b) {
      assert BackupOk(n, z, b);
      if z in n.nodes && n.nodes[z].gateway.Some? && n.nodes[z].gateway.value in n.nodes {
        BeforeAppend(n, n2, n.nodes[z].gateway.value, b, z);
      }
    }
    forall z, w ensures RankOk(n2, r, z, w) { assert RankOk(n, r, z, w); }
  }

  // -- Deaths: new ranks that put each orphan above the orphans its gateway accepted earlier --

  // The live hosts a node leads to: its live gateway, or as an orphan its live backups. Host x is about to die.
  function Heads(n: Network, x: Host, y: Host): seq<Host>
    requires y in n.nodes
  {
    if y !in n.alive || n.nodes[y].gateway.None? then []
    else if n.nodes[y].gateway.value in n.alive then
      if n.nodes[y].gateway.value == x then [] else [n.nodes[y].gateway.value]
    else n.nodes[y].backups
  }

  lemma HeadsBelow(n: Network, r: map<Host, nat>, x: Host, y: Host, z: Host)
    requires Inv(n, r) && y in n.nodes && z in Heads(n, x, y) && z in n.alive && z in n.nodes
    ensures y in n.alive && r[z] < r[y]
  {
    assert RankOk(n, r, y, z);
  }

  // Which of the dying host's clients a node leads to, by position in the dying host's list of peers: the largest
  // position plus one, or 0 for none.
  ghost function Level(n: Network, r: map<Host, nat>, x: Host, y: Host): nat
    requires Inv(n, r) && x in n.nodes && y in n.nodes
    decreases r[y], 1, 0
  {
    if y in n.alive && GatewayIs(n, y, x) then IndexOf(n.nodes[x].peers, y) + 1
    else HighestLevel(n, r, x, y, Heads(n, x, y))
  }

  ghost function HighestLevel(n: Network, r: map<Host, nat>, x: Host, y: Host, zs: seq<Host>): nat
    requires Inv(n, r) && x in n.nodes && y in n.nodes
    requires forall z | z in zs :: z in Heads(n, x, y)
    decreases r[y], 0, |zs|
  {
    if zs == [] then 0
    else
      var here :=
        if zs[0] in n.alive && zs[0] in n.nodes then
          HeadsBelow(n, r, x, y, zs[0]); Level(n, r, x, zs[0])
        else 0;
      var there := HighestLevel(n, r, x, y, zs[1..]);
      if here < there then there else here
  }

  // A node that leads somewhere is at least as high as what it leads to.
  lemma {:induction false} LevelAtLeast(n: Network, r: map<Host, nat>, x: Host, y: Host, zs: seq<Host>, z: Host)
    requires Inv(n, r) && x in n.nodes && y in n.nodes
    requires (forall w | w in zs :: w in Heads(n, x, y)) && z in zs && z in n.alive && z in n.nodes
    ensures HighestLevel(n, r, x, y, zs) >= Level(n, r, x, z)
  {
    if z != zs[0] { LevelAtLeast(n, r, x, y, zs[1..], z); }
  }

  // Only nodes above the dying host have a level, for its clients are above it.
  lemma {:induction false} LevelAbove(n: Network, r: map<Host, nat>, x: Host, y: Host)
    requires Inv(n, r) && x in n.alive && x in n.nodes && y in n.nodes
    ensures Level(n, r, x, y) > 0 ==> y in n.alive && r[y] > r[x]
    decreases r[y], 1, 0
  {
    assert RankOk(n, r, y, x);
    if !(y in n.alive && GatewayIs(n, y, x)) { HighestAbove(n, r, x, y, Heads(n, x, y)); }
  }

  lemma {:induction false} HighestAbove(n: Network, r: map<Host, nat>, x: Host, y: Host, zs: seq<Host>)
    requires Inv(n, r) && x in n.alive && x in n.nodes && y in n.nodes
    requires forall z | z in zs :: z in Heads(n, x, y)
    ensures HighestLevel(n, r, x, y, zs) > 0 ==> y in n.alive && r[y] > r[x]
    decreases r[y], 0, |zs|
  {
    if zs != [] {
      if zs[0] in n.alive && zs[0] in n.nodes {
        HeadsBelow(n, r, x, y, zs[0]);
        LevelAbove(n, r, x, zs[0]);
      }
      HighestAbove(n, r, x, y, zs[1..]);
    }
  }

  // The rank a, raised by k for each level.
  function Lift(a: nat, k: nat, level: nat): nat { if level == 0 then a else k + Lift(a, k, level - 1) }

  lemma {:induction false} LiftOrder(k: nat, a: nat, la: nat, b: nat, lb: nat)
    requires a < k
    ensures la <= lb && a < b ==> Lift(a, k, la) < Lift(b, k, lb)
    ensures la < lb ==> Lift(a, k, la) < Lift(b, k, lb)
    decreases lb
  {
    if la > 0 && lb > 0 {
      LiftOrder(k, a, la - 1, b, lb - 1);
    } else if lb > 0 {
      LiftOrder(k, a, 0, b, lb - 1);
    }
  }

  // The new ranks: old ranks, raised by level.
  ghost function Raised(n: Network, r: map<Host, nat>, x: Host, k: nat): map<Host, nat>
    requires Inv(n, r) && x in n.nodes
  {
    map y | y in n.nodes :: Lift(r[y], k, Level(n, r, x, y))
  }

  lemma RaisedOk(n: Network, r: map<Host, nat>, x: Host, k: nat, y: Host, z: Host)
    requires Inv(n, r) && Enabled(n, Die(x)) && forall w | w in r :: r[w] < k
    ensures RankOk(Next(n, Die(x)), Raised(n, r, x, k), y, z)
  {
    var n2 := Next(n, Die(x));
    if y in n2.alive && z in n2.alive && y in n.nodes && z in n.nodes &&
       (GatewayIs(n2, y, z) || (Orphan(n2, y) && z in n2.nodes[y].backups)) {
      assert RankOk(n, r, y, z) && NodeOk(n, y);
      LiftOrder(k, r[z], Level(n, r, x, z), r[y], Level(n, r, x, y));
      if GatewayIs(n, y, x) {
        NewOrphanOk(n, r, x, y, z);
      } else {
        LevelAtLeast(n, r, x, y, Heads(n, x, y), z);
      }
    }
  }

  // A new orphan's live backups: the dead gateway's gateway, which has no level, or a client accepted earlier.
  lemma NewOrphanOk(n: Network, r: map<Host, nat>, x: Host, y: Host, z: Host)
    requires Inv(n, r) && Enabled(n, Die(x)) && y in n.alive && z in n.alive && z != x && y in n.nodes && z in n.nodes
    requires GatewayIs(n, y, x) && z in n.nodes[y].backups
    ensures Level(n, r, x, z) < Level(n, r, x, y)
  {
    assert BackupOk(n, y, z) && NodeOk(n, x);
    if GatewayIs(n, x, z) {
      assert RankOk(n, r, x, z);
      LevelAbove(n, r, x, z);
    } else {
      var i, j :| 0 <= i < j < |n.nodes[x].peers| && n.nodes[x].peers[i] == z && n.nodes[x].peers[j] == y;
      assert IndexOf(n.nodes[x].peers, z) == i && IndexOf(n.nodes[x].peers, y) == j;
    }
  }

  lemma DieKeeps(n: Network, r: map<Host, nat>, x: Host) returns (r2: map<Host, nat>)
    requires Inv(n, r) && Enabled(n, Die(x))
    ensures Inv(Next(n, Die(x)), r2)
  {
    var k := SomeBound(r);
    r2 := Raised(n, r, x, k);
    var n2 := Next(n, Die(x));
    forall y ensures NodeOk(n2, y) { assert NodeOk(n, y); }
    forall y, z ensures LinkOk(n2, y, z) { assert LinkOk(n, y, z); }
    forall y, b ensures BackupOk(n2, y, b) {
      assert BackupOk(n, y, b);
      if y in n.nodes && n.nodes[y].gateway.Some? && n.nodes[y].gateway.value in n.nodes {
        BeforeAppend(n, n2, n.nodes[y].gateway.value, b, y);
      }
    }
    forall y, z ensures RankOk(n2, r2, y, z) { RaisedOk(n, r, x, k, y, z); }
  }

  // -- Lost links and failover --

  lemma EraseKeeps(peers: seq<Host>, x: Host)
    requires NoDuplicates(peers) && x in peers
    ensures var rest := EraseAt(peers, IndexOf(peers, x));
      NoDuplicates(rest) && forall z :: z in rest <==> z in peers && z != x
  {
    var k := IndexOf(peers, x);
    var rest := EraseAt(peers, k);
    forall z ensures z in rest <==> z in peers && z != x {
      if z in peers && z != x {
        var i :| 0 <= i < |peers| && peers[i] == z;
        assert rest[if i < k then i else i - 1] == z;
      }
    }
  }

  // Erasing one element keeps the order of the others.
  lemma EraseKeepsOrder(peers: seq<Host>, x: Host, i: nat, j: nat) returns (i2: nat, j2: nat)
    requires x in peers && i < j < |peers| && peers[i] != x && peers[j] != x
    ensures var rest := EraseAt(peers, IndexOf(peers, x));
      i2 < j2 < |rest| && rest[i2] == peers[i] && rest[j2] == peers[j]
  {
    var k := IndexOf(peers, x);
    i2, j2 := if i < k then i else i - 1, if j < k then j else j - 1;
  }

  // The effect of erasing a dead peer on one node.
  lemma DropDeadPeer(n: Network, r: map<Host, nat>, y: Host, x: Host, backups: seq<Host>, gateway: Option<Host>)
    requires Inv(n, r) && y in n.alive && y in n.nodes && x !in n.alive && x in n.nodes[y].peers
    requires NoDuplicates(backups) && forall b | b in backups :: b in n.nodes[y].backups
    requires gateway == n.nodes[y].gateway || (gateway == None && n.nodes[y].gateway == Some(x))
    ensures Inv(n.(nodes := n.nodes[y := Node(EraseAt(n.nodes[y].peers, IndexOf(n.nodes[y].peers, x)), gateway, backups)]), r)
  {
    var rest := EraseAt(n.nodes[y].peers, IndexOf(n.nodes[y].peers, x));
    var n2 := n.(nodes := n.nodes[y := Node(rest, gateway, backups)]);
    assert NodeOk(n, y);
    EraseKeeps(n.nodes[y].peers, x);
    forall z ensures NodeOk(n2, z) { assert NodeOk(n, z); }
    forall z, w ensures LinkOk(n2, z, w) { assert LinkOk(n, z, w); }
    forall z, b ensures BackupOk(n2, z, b) { DropBackups(n, n2, y, x, z, b); }
    forall z, w ensures RankOk(n2, r, z, w) { assert RankOk(n, r, z, w); }
  }

  lemma DropBackups(n: Network, n2: Network, y: Host, x: Host, z: Host, b: Host)
    requires BackupOk(n, z, b) && y in n.nodes && x !in n.alive && x in n.nodes[y].peers
    requires n2.alive == n.alive && n2.nodes.Keys == n.nodes.Keys
    requires n2.nodes[y].peers == EraseAt(n.nodes[y].peers, IndexOf(n.nodes[y].peers, x))
    requires forall c | c in n2.nodes[y].backups :: c in n.nodes[y].backups
    requires n2.nodes[y].gateway == n.nodes[y].gateway ||
             (n2.nodes[y].gateway == None && n.nodes[y].gateway == Some(x))
    requires forall w | w in n.nodes && w != y :: n2.nodes[w] == n.nodes[w]
    ensures BackupOk(n2, z, b)
  {
    if z in n.alive && b in n.alive && z in n.nodes && n.nodes[z].gateway.Some? {
      var g := n.nodes[z].gateway.value;
      if Before(n, g, b, z) {
        var i, j :| 0 <= i < j < |n.nodes[g].peers| && n.nodes[g].peers[i] == b && n.nodes[g].peers[j] == z;
        if g == y { i, j := EraseKeepsOrder(n.nodes[y].peers, x, i, j); }
        assert n2.nodes[g].peers[i] == b && n2.nodes[g].peers[j] == z;
      }
    }
  }

  // An orphan that gave up its gateway connects to one of its live backups b.
  lemma RehomeKeeps(n: Network, r: map<Host, nat>, y: Host, b: Host)
    requires Inv(n, r) && y in n.alive && b in n.alive && y in n.nodes && b in n.nodes && y != b
    requires n.nodes[y].gateway == None && r[b] < r[y]
    requires b !in n.nodes[y].peers && y !in n.nodes[b].peers
    ensures var node := n.nodes[y];
      Inv(Connect(n.(nodes := n.nodes[y := Node([b] + node.peers, Some(b), node.backups)]), y, b), r)
  {
    var node := n.nodes[y];
    var n2 := Connect(n.(nodes := n.nodes[y := Node([b] + node.peers, Some(b), node.backups)]), y, b);
    assert n2.nodes[y] == Node([b] + node.peers, Some(b), n.nodes[b].peers);
    assert n2.nodes[b] == n.nodes[b].(peers := n.nodes[b].peers + [y]);
    forall z ensures NodeOk(n2, z) { assert NodeOk(n, z) && NodeOk(n, b); }
    forall z, w ensures LinkOk(n2, z, w) { assert LinkOk(n, z, w); }
    forall z, c ensures BackupOk(n2, z, c) { RehomeBackups(n, n2, r, y, b, z, c); }
    forall z, w ensures RankOk(n2, r, z, w) { assert RankOk(n, r, z, w); }
  }

  lemma RehomeBackups(n: Network, n2: Network, r: map<Host, nat>, y: Host, b: Host, z: Host, c: Host)
    requires Inv(n, r) && y in n.alive && b in n.alive && y in n.nodes && b in n.nodes && y != b
    requires n.nodes[y].gateway == None
    requires n2.alive == n.alive && n2.nodes.Keys == n.nodes.Keys
    requires n2.nodes[y] == Node([b] + n.nodes[y].peers, Some(b), n.nodes[b].peers)
    requires n2.nodes[b] == n.nodes[b].(peers := n.nodes[b].peers + [y])
    requires forall w | w in n.nodes && w != y && w != b :: n2.nodes[w] == n.nodes[w]
    requires y !in n.nodes[b].peers
    ensures BackupOk(n2, z, c)
  {
    assert BackupOk(n, z, c) && LinkOk(n, b, c) && NodeOk(n, b);
    if z == y {
      if c in n.alive && c in n.nodes[b].peers {
        var i :| 0 <= i < |n.nodes[b].peers| && n.nodes[b].peers[i] == c;
        assert n2.nodes[b].peers[i] == c && n2.nodes[b].peers[|n.nodes[b].peers|] == y;
      }
    } else if z in n.nodes && n.nodes[z].gateway.Some? && n.nodes[z].gateway.value in n.nodes {
      var g := n.nodes[z].gateway.value;
      if Before(n, g, c, z) {
        var i, j :| 0 <= i < j < |n.nodes[g].peers| && n.nodes[g].peers[i] == c && n.nodes[g].peers[j] == z;
        var shift := if g == y then 1 else 0;
        assert n2.nodes[g].peers[i + shift] == c && n2.nodes[g].peers[j + shift] == z;
      }
    }
  }

  lemma LoseKeeps(n: Network, r: map<Host, nat>, y: Host, x: Host, ok: set<nat>)
    requires Inv(n, r) && Enabled(n, Lose(y, x, ok))
    ensures Inv(Next(n, Lose(y, x, ok)), r)
  {
    var node := n.nodes[y];
    assert NodeOk(n, y);
    var k := FirstReachable(node.backups, ok, 0);
    if node.gateway != Some(x) {
      DropDeadPeer(n, r, y, x, node.backups, node.gateway);
    } else if k == |node.backups| {
      DropDeadPeer(n, r, y, x, node.backups, None);
    } else {
      var b := node.backups[k];
      var left := EraseAt(node.backups, k);
      assert forall c | c in left :: c in node.backups;
      DropDeadPeer(n, r, y, x, left, None);
      assert b in n.alive && b in node.backups && RankOk(n, r, y, b);
      assert LinkOk(n, y, b) && LinkOk(n, b, y) && RankOk(n, r, b, y) && NodeOk(n, b);
      EraseKeeps(node.peers, x);
      var rest := EraseAt(node.peers, IndexOf(node.peers, x));
      var n1 := n.(nodes := n.nodes[y := Node(rest, None, left)]);
      RehomeKeeps(n1, r, y, b);
      assert n1.nodes[y := Node([b] + rest, Some(b), left)] == n.nodes[y := Node([b] + rest, Some(b), left)];
    }
  }

  // -- Runs --

  // A run of events from a founded network.
  ghost predicate Run(root: Host, states: seq<Network>, events: seq<Event>) {
    && |states| == |events| + 1 && states[0] == Founded(root)
    && forall i | 0 <= i < |events| :: Enabled(states[i], events[i]) && states[i + 1] == Next(states[i], events[i])
  }

  lemma NextKeeps(n: Network, r: map<Host, nat>, e: Event) returns (r2: map<Host, nat>)
    requires Inv(n, r) && Enabled(n, e)
    ensures Inv(Next(n, e), r2)
  {
    r2 := r;
    match e
    case Join(j, g) => r2 := JoinKeeps(n, r, j, g);
    case Die(x) => r2 := DieKeeps(n, r, x);
    case Lose(y, x, ok) => LoseKeeps(n, r, y, x, ok);
    case Forget(y, x) => NoticeKeeps(n, r, y, x);
  }

  /** The key invariant holds after every run, with some ranking of the nodes. */
  lemma {:induction false} RunKeeps(root: Host, states: seq<Network>, events: seq<Event>, i: nat)
    returns (r: map<Host, nat>)
    requires Run(root, states, events) && i < |states|
    ensures Inv(states[i], r)
  {
    if i == 0 {
      FoundedOk(root);
      r := map[root := 0];
    } else {
      var r1 := RunKeeps(root, states, events, i - 1);
      r := NextKeeps(states[i - 1], r1, events[i - 1]);
    }
  }

  // Following gateway pointers from y through live nodes, at most k times.
  function Climb(n: Network, y: Host, k: nat): Option<Host>
    decreases k
  {
    if y !in n.alive then None
    else if k == 0 then Some(y)
    else if y in n.nodes && n.nodes[y].gateway.Some? then Climb(n, n.nodes[y].gateway.value, k - 1)
    else None
  }

  lemma {:induction false} ClimbDescends(n: Network, r: map<Host, nat>, y: Host, k: nat)
    requires Inv(n, r)
    ensures Climb(n, y, k).Some? ==>
      y in n.alive && y in n.nodes && Climb(n, y, k).value in n.alive && Climb(n, y, k).value in n.nodes &&
      r[Climb(n, y, k).value] + k <= r[y]
    decreases k
  {
    if k > 0 && y in n.alive && y in n.nodes && n.nodes[y].gateway.Some? {
      var g := n.nodes[y].gateway.value;
      assert RankOk(n, r, y, g);
      ClimbDescends(n, r, g, k - 1);
    }
  }

  /** Gateway pointers among live nodes never form a cycle, whatever joins, dies, fails over, in whatever order and
      with whatever connection failures. */
  lemma NoGatewayCycle(root: Host, states: seq<Network>, events: seq<Event>, i: nat, y: Host, k: nat)
    requires Run(root, states, events) && i < |states| && k > 0
    ensures Climb(states[i], y, k) != Some(y)
  {
    var r := RunKeeps(root, states, events, i);
    ClimbDescends(states[i], r, y, k);
  }

  /** A live backup of a node whose gateway lives is the gateway's gateway, or a client of the gateway accepted
      earlier; and live peers are exactly the gateway and the clients. */
  lemma BackupsAreNearby(root: Host, states: seq<Network>, events: seq<Event>, i: nat, y: Host)
    requires Run(root, states, events) && i < |states| && y in states[i].alive
    ensures var n := states[i];
      && y in n.nodes && NoDuplicates(n.nodes[y].peers)
      && (forall z | z in n.alive :: z in n.nodes[y].peers <==> GatewayIs(n, y, z) || GatewayIs(n, z, y))
      && (n.nodes[y].gateway.Some? && n.nodes[y].gateway.value in n.alive ==>
            forall b | b in n.nodes[y].backups && b in n.alive ::
              var g := n.nodes[y].gateway.value;
              GatewayIs(n, g, b) || (GatewayIs(n, b, g) && Before(n, g, b, y)))
  {
    var r := RunKeeps(root, states, events, i);
    var n := states[i];
    assert NodeOk(n, y);
    forall z | z in n.alive ensures z in n.nodes[y].peers <==> GatewayIs(n, y, z) || GatewayIs(n, z, y) {
      assert LinkOk(n, y, z);
    }
    forall b | b in n.nodes[y].backups && b in n.alive ensures BackupOk(n, y, b) {}
  }

  /** In every reachable state a disconnect notice removes the dead host from the receiver's backups, and nobody else,
      although the loop skips elements: backups never hold a host twice. */
  lemma NoticeForgets(root: Host, states: seq<Network>, events: seq<Event>, i: nat)
    requires Run(root, states, events) && i < |events| && events[i].Forget?
    ensures var y, x := events[i].host, events[i].gone;
      && y in states[i].nodes && y in states[i + 1].nodes && x !in states[i + 1].nodes[y].backups
      && forall b | b != x :: b in states[i + 1].nodes[y].backups <==> b in states[i].nodes[y].backups
  {
    var r := RunKeeps(root, states, events, i);
    var y, x := events[i].host, events[i].gone;
    assert NodeOk(states[i], y) && Enabled(states[i], events[i]);
    ForgetFromIff(states[i].nodes[y].backups, x, 0);
  }

  // The chain 0 - 1 - 2 - 3.
  lemma Chain() returns (states: seq<Network>)
    ensures |states| == 4 && Run(0, states, [Join(1, 0), Join(2, 1), Join(3, 2)])
    ensures var n := states[3];
      && n.alive == {0, 1, 2, 3} && n.nodes.Keys == {0, 1, 2, 3}
      && n.nodes[2] == Node([1, 3], Some(1), [0]) && n.nodes[3] == Node([2], Some(2), [1])
  {
    var s0 := Founded(0);
    var s1 := Next(s0, Join(1, 0));
    assert s1.nodes[0].peers == [1] && s1.nodes[1] == Node([0], Some(0), []);
    var s2 := Next(s1, Join(2, 1));
    assert s2.nodes[1].peers == [0, 2] && s2.nodes[2] == Node([1], Some(1), [0]);
    var s3 := Next(s2, Join(3, 2));
    assert s3.nodes[2] == Node([1, 3], Some(1), [0]) && s3.nodes[3] == Node([2], Some(2), [1]);
    states := [s0, s1, s2, s3];
  }

  /** Connectivity, unlike acyclicity, is not kept for ever: in the chain 0 - 1 - 2 - 3 node 3 only knows 1 as its
      backup and is not told when 2 moves from 1 to 0. After the deaths of 1 and 2, node 3 is left alone although
      0 lives, and it had no live backup to try. */
  lemma StaleBackupsIsolate() returns (states: seq<Network>, events: seq<Event>)
    ensures Run(0, states, events)
    ensures var last := states[|events|];
      last.alive == {0, 3} && 3 in last.nodes && last.nodes[3] == Node([], None, [1])
  {
    states := Chain();
    events := [Join(1, 0), Join(2, 1), Join(3, 2)];
    assert EraseAt([1, 3], 0) == [3] && EraseAt([0], 0) == [] && EraseAt([2], 0) == [];
    states, events := RunOn(0, states, events, Die(1));
    states, events := RunOn(0, states, events, Lose(2, 1, {0}));
    states, events := RunOn(0, states, events, Die(2));
    states, events := RunOn(0, states, events, Lose(3, 2, {}));
  }

  lemma RunOn(root: Host, states: seq<Network>, events: seq<Event>, e: Event)
    returns (states2: seq<Network>, events2: seq<Event>)
    requires Run(root, states, events) && Enabled(states[|events|], e)
    ensures Run(root, states2, events2) && |events2| == |events| + 1
    ensures states2[|events2|] == Next(states[|events|], e)
  {
    states2, events2 := states + [Next(states[|events|], e)], events + [e];
  }
}
