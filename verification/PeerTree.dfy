/** Trees of peers: next hops, and how a link splits the tree. */
module PeerTree {
  import opened Routing

  // A rooted tree; ranks grow away from the root, so parents come first.
  datatype Tree = Tree(nodes: set<Host>, root: Host, parent: map<Host, Host>, rank: map<Host, nat>)

  ghost predicate Valid(t: Tree) {
    && t.root in t.nodes
    && t.rank.Keys == t.nodes
    && t.parent.Keys == t.nodes - {t.root}
    && forall x | x in t.parent :: t.parent[x] in t.nodes && t.rank[t.parent[x]] < t.rank[x]
  }

  // Two nodes with a link between them.
  predicate Linked(t: Tree, x: Host, y: Host) {
    (x in t.parent && t.parent[x] == y) || (y in t.parent && t.parent[y] == x)
  }

  // x is in the subtree of a.
  predicate Below(t: Tree, a: Host, x: Host)
    requires Valid(t) && x in t.nodes
    decreases t.rank[x]
  {
    x == a || (x != t.root && Below(t, a, t.parent[x]))
  }

  // The child of v whose subtree holds x.
  function ChildToward(t: Tree, v: Host, x: Host): (c: Host)
    requires Valid(t) && v in t.nodes && x in t.nodes && Below(t, v, x) && x != v
    ensures c in t.parent && t.parent[c] == v
    decreases t.rank[x]
  {
    if t.parent[x] == v then x else ChildToward(t, v, t.parent[x])
  }

  // The next hop on the way from v to x.
  function Toward(t: Tree, v: Host, x: Host): (w: Host)
    requires Valid(t) && v in t.nodes && x in t.nodes && x != v
    ensures w in t.nodes && Linked(t, v, w)
  {
    if Below(t, v, x) then ChildToward(t, v, x)
    else RootAbove(t, x); t.parent[v]
  }

  lemma {:induction false} RootAbove(t: Tree, x: Host)
    requires Valid(t) && x in t.nodes
    ensures Below(t, t.root, x)
    decreases t.rank[x]
  {
    if x != t.root { RootAbove(t, t.parent[x]); }
  }

  lemma {:induction false} ChildIff(t: Tree, v: Host, c: Host, x: Host)
    requires Valid(t) && v in t.nodes && x in t.nodes && x != v && c in t.parent && t.parent[c] == v
    ensures Below(t, c, x) <==> Below(t, v, x) && ChildToward(t, v, x) == c
    decreases t.rank[x]
  {
    if x != t.root && x != c && t.parent[x] != v { ChildIff(t, v, c, t.parent[x]); }
    else if x == t.root { RootRank(t, v); RootRank(t, c); }
    else if x != c { RankBelow(t, c, v); }
  }

  lemma {:induction false} RankBelow(t: Tree, a: Host, x: Host)
    requires Valid(t) && a in t.nodes && x in t.nodes
    ensures Below(t, a, x) ==> t.rank[a] <= t.rank[x]
    decreases t.rank[x]
  {
    if x != a && x != t.root { RankBelow(t, a, t.parent[x]); }
  }

  lemma RootRank(t: Tree, v: Host)
    requires Valid(t) && v in t.nodes
    ensures Below(t, v, t.root) <==> v == t.root
  {
  }

  /** A link splits the tree: seen from its two ends, every other node lies behind exactly one of them. */
  lemma LinkSplits(t: Tree, u: Host, v: Host, x: Host)
    requires Valid(t) && u in t.nodes && v in t.nodes && x in t.nodes && Linked(t, u, v)
    ensures u != v && Toward(t, u, v) == v
    ensures x != u && x != v ==> (Toward(t, u, x) == v <==> Toward(t, v, x) != u)
  {
    if v in t.parent && t.parent[v] == u { DownSplits(t, u, v, x); } else { DownSplits(t, v, u, x); }
  }

  lemma DownSplits(t: Tree, u: Host, v: Host, x: Host)
    requires Valid(t) && u in t.nodes && v in t.parent && t.parent[v] == u && x in t.nodes
    ensures u != v && Toward(t, u, v) == v && Toward(t, v, u) == u
    ensures x != u && x != v ==> (Toward(t, u, x) == v <==> Toward(t, v, x) != u)
  {
    RankBelow(t, v, u);
    assert Below(t, u, u);
    assert Below(t, u, v);
    if x != u && x != v {
      ChildIff(t, u, v, x);
      if !Below(t, u, x) {
        RootAbove(t, x);
        assert Toward(t, u, x) == t.parent[u];
      }
    }
  }

  /** Neighbours lie in the same direction from any third node. */
  lemma SameDirection(t: Tree, d: Host, v: Host, w: Host)
    requires Valid(t) && d in t.nodes && v in t.nodes && w in t.nodes && Linked(t, v, w) && d != v && d != w
    ensures Toward(t, d, v) == Toward(t, d, w)
  {
    if w in t.parent && t.parent[w] == v { SameDown(t, d, v, w); } else { SameDown(t, d, w, v); }
  }

  lemma SameDown(t: Tree, d: Host, up: Host, down: Host)
    requires Valid(t) && d in t.nodes && down in t.parent && t.parent[down] == up && d != up && d != down
    ensures Toward(t, d, up) == Toward(t, d, down)
  {
    assert Below(t, d, down) <==> Below(t, d, up);
  }

  // A node's list of peers, in any order.
  ghost predicate PeersOf(t: Tree, v: Host, peers: seq<Host>) {
    && NoDuplicates(peers)
    && (forall w :: w in peers <==> w in t.nodes && Linked(t, v, w))
  }

  // -- Next hops as a table --

  // A network: every node's peers, and from every node the next hop toward every other one.
  datatype Net = Net(nodes: set<Host>, peers: map<Host, seq<Host>>, hop: map<(Host, Host), Host>)

  ghost predicate Shaped(n: Net) {
    n.peers.Keys == n.nodes && forall v, x | v in n.nodes && x in n.nodes && v != x :: (v, x) in n.hop
  }

  // For linked u and v, every other node lies behind exactly one of them.
  ghost predicate LinkOk(n: Net, u: Host, v: Host, x: Host)
    requires Shaped(n)
  {
    u in n.nodes && v in n.nodes && x in n.nodes && v in n.peers[u] ==>
      && u != v && n.hop[(u, v)] == v && u in n.peers[v]
      && (x != u && x != v ==> (n.hop[(u, x)] == v <==> n.hop[(v, x)] != u))
  }

  // Linked nodes lie in the same direction from any third node.
  ghost predicate DirectionOk(n: Net, d: Host, v: Host, w: Host)
    requires Shaped(n)
  {
    d in n.nodes && v in n.nodes && w in n.nodes && w in n.peers[v] && d != v && d != w ==>
      n.hop[(d, v)] == n.hop[(d, w)]
  }

  ghost predicate NodeOk(n: Net, v: Host)
    requires Shaped(n)
  {
    v in n.nodes ==>
      && NoDuplicates(n.peers[v])
      && (forall w | w in n.peers[v] :: w in n.nodes)
      && forall x | x in n.nodes && x != v :: n.hop[(v, x)] in n.peers[v]
  }

  ghost predicate ValidNet(n: Net) {
    && Shaped(n)
    && (forall v :: NodeOk(n, v))
    && (forall u, v, x :: LinkOk(n, u, v, x))
    && (forall d, v, w :: DirectionOk(n, d, v, w))
  }

  function NetOf(t: Tree, peers: map<Host, seq<Host>>): Net
    requires Valid(t)
  {
    Net(t.nodes, peers, map v, x | v in t.nodes && x in t.nodes && v != x :: (v, x) := Toward(t, v, x))
  }

  /** Every tree whose nodes know their neighbours is such a network. */
  lemma TreeIsNet(t: Tree, peers: map<Host, seq<Host>>)
    requires Valid(t) && peers.Keys == t.nodes && forall v | v in t.nodes :: PeersOf(t, v, peers[v])
    ensures ValidNet(NetOf(t, peers))
  {
    var n := NetOf(t, peers);
    forall u, v, x ensures LinkOk(n, u, v, x) {
      if u in t.nodes && v in t.nodes && x in t.nodes && v in n.peers[u] {
        assert PeersOf(t, u, peers[u]) && PeersOf(t, v, peers[v]);
        LinkSplits(t, u, v, x);
      }
    }
    forall d, v, w ensures DirectionOk(n, d, v, w) {
      if d in t.nodes && v in t.nodes && w in t.nodes && w in n.peers[v] && d != v && d != w {
        assert PeersOf(t, v, peers[v]);
        SameDirection(t, d, v, w);
      }
    }
    forall v ensures NodeOk(n, v) {
      if v in t.nodes { assert PeersOf(t, v, peers[v]); }
    }
  }
}
