/** The skip-list priority queue run by one thread. Nodes live in an arena and are named by their index; the ghost field
    levels holds each level's chain of nodes from the head to the tail. */
module SkipList {
  import opened Wrappers
  import opened SkipListNodes

  // -- One level --

  // Position a of a chain: the node there is linked to the next, which has a larger priority.
  predicate Linked(nodes: Nodes, next: Links, chain: seq<Id>, i: nat, a: nat) {
    a < |chain| - 1 ==>
      && chain[a] in nodes && chain[a + 1] in nodes && nodes[chain[a]].prio < nodes[chain[a + 1]].prio
      && (chain[a], i) in next && next[(chain[a], i)].to == chain[a + 1]
  }

  // The chain of level i goes from the head to the tail and is strictly sorted.
  ghost predicate ChainOk(nodes: Nodes, next: Links, chain: seq<Id>, i: nat) {
    && |chain| >= 2 && chain[0] == HEAD && chain[|chain| - 1] == TAIL && TAIL in nodes && (TAIL, i) in next
    && forall a: nat :: Linked(nodes, next, chain, i, a)
  }

  // Level i holds the live nodes that reach it, apart perhaps from some of those in gone.
  predicate Placed(nodes: Nodes, chain: seq<Id>, live: set<Id>, gone: set<Id>, i: nat, n: Id) {
    && (n in chain ==> n in live && n in nodes && i <= nodes[n].top)
    && (n in live && n !in gone && n in nodes && i <= nodes[n].top ==> n in chain)
  }

  ghost predicate LevelOk(nodes: Nodes, next: Links, chain: seq<Id>, live: set<Id>, gone: set<Id>, i: nat) {
    ChainOk(nodes, next, chain, i) && forall n :: Placed(nodes, chain, live, gone, i, n)
  }

  lemma {:induction false} Sorted(nodes: Nodes, next: Links, chain: seq<Id>, i: nat, a: nat, b: nat)
    requires ChainOk(nodes, next, chain, i) && a < b < |chain|
    ensures chain[a] in nodes && chain[b] in nodes && nodes[chain[a]].prio < nodes[chain[b]].prio
    decreases b
  {
    assert Linked(nodes, next, chain, i, b - 1);
    if a < b - 1 { Sorted(nodes, next, chain, i, a, b - 1); }
  }

  function Cut(chain: seq<Id>, k: nat): seq<Id>
    requires k < |chain|
  {
    chain[..k] + chain[k + 1..]
  }

  lemma CutElements(chain: seq<Id>, k: nat)
    requires k < |chain| && forall a | 0 <= a < |chain| && a != k :: chain[a] != chain[k]
    ensures forall n :: n in Cut(chain, k) <==> n in chain && n != chain[k]
  {
    var cut := Cut(chain, k);
    forall n ensures n in cut <==> n in chain && n != chain[k] {
      if n in chain && n != chain[k] {
        var a :| 0 <= a < |chain| && chain[a] == n;
        assert cut[if a < k then a else a - 1] == n;
      }
      if n in cut {
        var a :| 0 <= a < |cut| && cut[a] == n;
        assert n == chain[if a < k then a else a + 1];
      }
    }
  }

  lemma Distinct(nodes: Nodes, next: Links, chain: seq<Id>, i: nat, k: nat)
    requires ChainOk(nodes, next, chain, i) && k < |chain|
    ensures forall a | 0 <= a < |chain| && a != k :: chain[a] != chain[k]
  {
    forall a | 0 <= a < |chain| && a != k ensures chain[a] != chain[k] {
      if a < k { Sorted(nodes, next, chain, i, a, k); } else { Sorted(nodes, next, chain, i, k, a); }
    }
  }

  // Unlinking a node from its level.
  lemma CutOk(nodes: Nodes, next: Links, chain: seq<Id>, i: nat, k: nat)
    requires ChainOk(nodes, next, chain, i) && k + 2 < |chain|
    ensures ChainOk(nodes, next[(chain[k], i) := Link(chain[k + 2], false)], Cut(chain, k + 1), i)
  {
    Distinct(nodes, next, chain, i, k);
    var next2, cut := next[(chain[k], i) := Link(chain[k + 2], false)], Cut(chain, k + 1);
    assert Linked(nodes, next, chain, i, k) && Linked(nodes, next, chain, i, k + 1);
    forall a: nat ensures Linked(nodes, next2, cut, i, a) {
      assert Linked(nodes, next, chain, i, a) && Linked(nodes, next, chain, i, a + 1);
    }
  }

  function Splice(chain: seq<Id>, k: nat, n: Id): seq<Id>
    requires k <= |chain|
  {
    chain[..k] + [n] + chain[k..]
  }

  lemma SpliceElements(chain: seq<Id>, k: nat, n: Id)
    requires k <= |chain|
    ensures forall m :: m in Splice(chain, k, n) <==> m in chain || m == n
  {
    var spliced := Splice(chain, k, n);
    assert spliced[k] == n;
    forall m | m in chain ensures m in spliced {
      var a :| 0 <= a < |chain| && chain[a] == m;
      assert spliced[if a < k then a else a + 1] == m;
    }
  }

  // Linking a node into a level.
  lemma SpliceOk(nodes: Nodes, next: Links, chain: seq<Id>, i: nat, k: nat, n: Id)
    requires ChainOk(nodes, next, chain, i) && k + 1 < |chain| && n in nodes && n !in chain
    requires chain[k] in nodes && nodes[chain[k]].prio < nodes[n].prio
    requires chain[k + 1] in nodes && nodes[n].prio < nodes[chain[k + 1]].prio
    requires (n, i) in next && next[(n, i)].to == chain[k + 1]
    ensures ChainOk(nodes, next[(chain[k], i) := Link(n, false)], Splice(chain, k + 1, n), i)
  {
    Distinct(nodes, next, chain, i, k);
    var next2, spliced := next[(chain[k], i) := Link(n, false)], Splice(chain, k + 1, n);
    forall a: nat ensures Linked(nodes, next2, spliced, i, a) {
      assert Linked(nodes, next, chain, i, a);
      if a > k { assert Linked(nodes, next, chain, i, a - 1); }
    }
  }

  // Links of other levels are the same.
  ghost predicate SameElsewhere(next: Links, next2: Links, i: nat) {
    forall n, j | (n, j) in next && j != i :: (n, j) in next2 && next2[(n, j)] == next[(n, j)]
  }

  // A change elsewhere leaves a level as it is.
  lemma LevelStable(nodes: Nodes, next: Links, next2: Links, chain: seq<Id>, live: set<Id>, gone: set<Id>, i: nat, j: nat)
    requires LevelOk(nodes, next, chain, live, gone, j) && SameElsewhere(next, next2, i) && i != j
    ensures LevelOk(nodes, next2, chain, live, gone, j)
  {
    forall a: nat ensures Linked(nodes, next2, chain, j, a) { assert Linked(nodes, next, chain, j, a); }
  }

  // -- Nodes --

  predicate Clean(nodes: Nodes, next: Links, deleted: set<Id>, n: Id)
    requires n in nodes
  {
    n !in deleted && forall i | 0 <= i <= nodes[n].top :: (n, i) in next && !next[(n, i)].marked
  }

  // findNode unlinks such a node at every level.
  predicate Dead(nodes: Nodes, next: Links, deleted: set<Id>, n: Id)
    requires n in nodes
  {
    && n != HEAD && n != TAIL
    && (forall i | 0 <= i <= nodes[n].top :: (n, i) in next)
    && (n in deleted || forall i | 0 <= i <= nodes[n].top :: next[(n, i)].marked)
  }

  // Every live node is clean, but for those in gone, which are dead and of priority prio.
  predicate NodeOk(height: nat, nodes: Nodes, next: Links, deleted: set<Id>, live: set<Id>, gone: set<Id>, prio: int,
                   n: Id) {
    && (n in live ==> n in nodes) && (n in gone ==> n in live) && (n in deleted ==> n in nodes)
    && (n in nodes ==>
          && n < |nodes| && nodes[n].top <= height
          && (n in live && n !in gone ==> Clean(nodes, next, deleted, n))
          && (n in gone ==> Dead(nodes, next, deleted, n) && nodes[n].prio == prio)
          && (n in live && n != HEAD && n != TAIL ==> INT_MIN < nodes[n].prio < INT_MAX))
  }

  ghost predicate NodesOk(height: nat, nodes: Nodes, next: Links, deleted: set<Id>, live: set<Id>, gone: set<Id>,
                          prio: int) {
    && HEAD in live && TAIL in live && HEAD in nodes && TAIL in nodes
    && nodes[HEAD] == Info(INT_MIN, height) && nodes[TAIL] == Info(INT_MAX, height)
    && forall n :: NodeOk(height, nodes, next, deleted, live, gone, prio, n)
  }

  // Only marks matter for the nodes.
  lemma MarksKept(height: nat, nodes: Nodes, next: Links, next2: Links, deleted: set<Id>, live: set<Id>, gone: set<Id>,
                  prio: int)
    requires NodesOk(height, nodes, next, deleted, live, gone, prio)
    requires forall l | l in next :: l in next2 && next2[l].marked == next[l].marked
    ensures NodesOk(height, nodes, next2, deleted, live, gone, prio)
  {
    forall n ensures NodeOk(height, nodes, next2, deleted, live, gone, prio, n) {
      assert NodeOk(height, nodes, next, deleted, live, gone, prio, n);
    }
  }

  // Node pred is the last of level i below prio, and succ is the first that is not.
  predicate Gap(nodes: Nodes, next: Links, live: set<Id>, i: nat, prio: int, pred: Id, succ: Id) {
    && pred in live && succ in live && pred in nodes && succ in nodes && i <= nodes[pred].top && i <= nodes[succ].top
    && nodes[pred].prio < prio <= nodes[succ].prio
    && (pred, i) in next && next[(pred, i)] == Link(succ, false)
  }

  // -- The search of one level --

  // The search of level i stands between the nodes k and k + 1 of the chain.
  ghost predicate Walking(height: nat, nodes: Nodes, next: Links, deleted: set<Id>, live: set<Id>, gone: set<Id>, prio: int,
                          chain: seq<Id>, i: nat, k: nat) {
    && NodesOk(height, nodes, next, deleted, live, gone, prio) && i <= height && LevelOk(nodes, next, chain, live, gone, i)
    && k < |chain| - 1 && chain[k] in live - gone && chain[k] in nodes && nodes[chain[k]].prio < prio
    && i <= nodes[chain[k]].top && chain[k + 1] in live && chain[k + 1] in nodes && i <= nodes[chain[k + 1]].top
    && (chain[k], i) in next && next[(chain[k], i)] == Link(chain[k + 1], false) && (chain[k + 1], i) in next
  }

  lemma WalkingAt(height: nat, nodes: Nodes, next: Links, deleted: set<Id>, live: set<Id>, gone: set<Id>, prio: int,
                  chain: seq<Id>, i: nat, k: nat)
    requires NodesOk(height, nodes, next, deleted, live, gone, prio) && i <= height
    requires LevelOk(nodes, next, chain, live, gone, i)
    requires k < |chain| && chain[k] in live - gone && chain[k] in nodes && nodes[chain[k]].prio < prio < INT_MAX
    ensures Walking(height, nodes, next, deleted, live, gone, prio, chain, i, k)
  {
    assert NodeOk(height, nodes, next, deleted, live, gone, prio, chain[k]);
    assert Placed(nodes, chain, live, gone, i, chain[k]) && Linked(nodes, next, chain, i, k);
    assert k < |chain| - 1;
    assert Placed(nodes, chain, live, gone, i, chain[k + 1]);
    assert NodeOk(height, nodes, next, deleted, live, gone, prio, chain[k + 1]);
  }

  lemma SnipKeeps(height: nat, nodes: Nodes, next: Links, deleted: set<Id>, live: set<Id>, gone: set<Id>, prio: int,
                  chain: seq<Id>, i: nat, k: nat)
    requires Walking(height, nodes, next, deleted, live, gone, prio, chain, i, k) && prio < INT_MAX
    requires next[(chain[k + 1], i)].marked || chain[k + 1] in deleted
    ensures var next2 := next[(chain[k], i) := Link(next[(chain[k + 1], i)].to, false)];
      Walking(height, nodes, next2, deleted, live, gone, prio, Cut(chain, k + 1), i, k)
  {
    var pred, curr := chain[k], chain[k + 1];
    assert NodeOk(height, nodes, next, deleted, live, gone, prio, curr);
    assert NodeOk(height, nodes, next, deleted, live, gone, prio, pred);
    assert curr in gone;
    assert Linked(nodes, next, chain, i, k + 1);
    CutOk(nodes, next, chain, i, k);
    Distinct(nodes, next, chain, i, k + 1);
    CutElements(chain, k + 1);
    var next2, cut := next[(pred, i) := Link(chain[k + 2], false)], Cut(chain, k + 1);
    MarksKept(height, nodes, next, next2, deleted, live, gone, prio);
    forall n ensures Placed(nodes, cut, live, gone, i, n) { assert Placed(nodes, chain, live, gone, i, n); }
    WalkingAt(height, nodes, next2, deleted, live, gone, prio, cut, i, k);
  }

  lemma StepOverKeeps(height: nat, nodes: Nodes, next: Links, deleted: set<Id>, live: set<Id>, gone: set<Id>, prio: int,
                      chain: seq<Id>, i: nat, k: nat)
    requires Walking(height, nodes, next, deleted, live, gone, prio, chain, i, k) && prio < INT_MAX
    requires !next[(chain[k + 1], i)].marked && chain[k + 1] !in deleted && nodes[chain[k + 1]].prio < prio
    ensures Walking(height, nodes, next, deleted, live, gone, prio, chain, i, k + 1)
  {
    assert NodeOk(height, nodes, next, deleted, live, gone, prio, chain[k + 1]);
    WalkingAt(height, nodes, next, deleted, live, gone, prio, chain, i, k + 1);
  }

  lemma ArriveInGap(height: nat, nodes: Nodes, next: Links, deleted: set<Id>, live: set<Id>, gone: set<Id>, prio: int,
                    chain: seq<Id>, i: nat, k: nat)
    requires Walking(height, nodes, next, deleted, live, gone, prio, chain, i, k)
    requires !next[(chain[k + 1], i)].marked && chain[k + 1] !in deleted && nodes[chain[k + 1]].prio >= prio
    ensures LevelOk(nodes, next, chain, live - gone, {}, i)
    ensures Gap(nodes, next, live - gone, i, prio, chain[k], chain[k + 1])
  {
    var pred, curr := chain[k], chain[k + 1];
    assert NodeOk(height, nodes, next, deleted, live, gone, prio, curr);
    forall a | 0 <= a < |chain| ensures chain[a] !in gone {
      assert NodeOk(height, nodes, next, deleted, live, gone, prio, chain[a]);
      if a < k { Sorted(nodes, next, chain, i, a, k); }
      if a > k + 1 { Sorted(nodes, next, chain, i, k + 1, a); }
    }
    forall n ensures Placed(nodes, chain, live - gone, {}, i, n) { assert Placed(nodes, chain, live, gone, i, n); }
  }

  lemma Position(nodes: Nodes, next: Links, live: set<Id>, gone: set<Id>, chain: seq<Id>, i: nat, n: Id) returns (k: nat)
    requires LevelOk(nodes, next, chain, live, {}, i) && n in live && n in nodes && i <= nodes[n].top
    ensures k < |chain| && chain[k] == n && LevelOk(nodes, next, chain, live, gone, i)
  {
    assert Placed(nodes, chain, live, {}, i, n);
    k :| k < |chain| && chain[k] == n;
    forall m ensures Placed(nodes, chain, live, gone, i, m) { assert Placed(nodes, chain, live, {}, i, m); }
  }

  // -- The contents --

  // The priorities queued, the abstract value of the list.
  function Prios(nodes: Nodes, live: set<Id>): set<int> {
    set n | n in live && n in nodes && n != HEAD && n != TAIL :: nodes[n].prio
  }

  lemma PriosOf(nodes: Nodes, live: set<Id>, n: Id)
    requires n in live && n in nodes && n != HEAD && n != TAIL
    ensures nodes[n].prio in Prios(nodes, live)
  {
  }

  // Two live nodes never have the same priority.
  lemma PriosDistinct(height: nat, nodes: Nodes, next: Links, deleted: set<Id>, live: set<Id>, gone: set<Id>, prio: int,
                      chain: seq<Id>, n: Id, m: Id)
    requires NodesOk(height, nodes, next, deleted, live, gone, prio) && LevelOk(nodes, next, chain, live, {}, 0)
    requires n in live && m in live && n in nodes && m in nodes && nodes[n].prio == nodes[m].prio
    ensures n == m
  {
    var a := Position(nodes, next, live, {}, chain, 0, n);
    var b := Position(nodes, next, live, {}, chain, 0, m);
    if a < b { Sorted(nodes, next, chain, 0, a, b); } else if b < a { Sorted(nodes, next, chain, 0, b, a); }
  }

  // At the bottom level the search decides membership.
  lemma FoundIff(height: nat, nodes: Nodes, next: Links, deleted: set<Id>, live: set<Id>, chain: seq<Id>, prio: int,
                 pred: Id, succ: Id)
    requires NodesOk(height, nodes, next, deleted, live, {}, prio) && LevelOk(nodes, next, chain, live, {}, 0)
    requires Gap(nodes, next, live, 0, prio, pred, succ) && INT_MIN < prio < INT_MAX
    ensures nodes[succ].prio == prio <==> prio in Prios(nodes, live)
  {
    if nodes[succ].prio == prio { PriosOf(nodes, live, succ); }
    var k := Position(nodes, next, live, {}, chain, 0, pred);
    assert Linked(nodes, next, chain, 0, k);
    assert nodes[chain[|chain| - 1]].prio == INT_MAX;
    forall n | n in live && n in nodes && nodes[n].prio == prio ensures n == succ {
      var a := Position(nodes, next, live, {}, chain, 0, n);
      if a < k { Sorted(nodes, next, chain, 0, a, k); }
      if a > k + 1 { Sorted(nodes, next, chain, 0, k + 1, a); }
    }
  }

  // Taking out the nodes of one priority takes out that priority.
  lemma PriosMinus(height: nat, nodes: Nodes, next: Links, deleted: set<Id>, live: set<Id>, gone: set<Id>, prio: int,
                   chain: seq<Id>)
    requires NodesOk(height, nodes, next, deleted, live, gone, prio) && LevelOk(nodes, next, chain, live, {}, 0)
    ensures Prios(nodes, live - gone) == if gone == {} then Prios(nodes, live) else Prios(nodes, live) - {prio}
  {
    if gone != {} {
      var g :| g in gone;
      assert NodeOk(height, nodes, next, deleted, live, gone, prio, g);
      forall p ensures p in Prios(nodes, live - gone) <==> p in Prios(nodes, live) && p != prio {
        if p in Prios(nodes, live) {
          var n :| n in live && n in nodes && n != HEAD && n != TAIL && nodes[n].prio == p;
          assert NodeOk(height, nodes, next, deleted, live, gone, prio, n);
          if p == prio { PriosDistinct(height, nodes, next, deleted, live, gone, prio, chain, n, g); }
          if p != prio { PriosOf(nodes, live - gone, n); }
        }
        if p == prio && p in Prios(nodes, live - gone) {
          var n :| n in live - gone && n in nodes && n != HEAD && n != TAIL && nodes[n].prio == p;
          PriosDistinct(height, nodes, next, deleted, live, gone, prio, chain, n, g);
        }
      }
    }
  }

  // Without dead nodes the priority searched for does not matter.
  lemma ShapeAny(height: nat, nodes: Nodes, next: Links, deleted: set<Id>, live: set<Id>, p: int, q: int)
    requires NodesOk(height, nodes, next, deleted, live, {}, p)
    ensures NodesOk(height, nodes, next, deleted, live, {}, q)
  {
    forall n ensures NodeOk(height, nodes, next, deleted, live, {}, q, n) {
      assert NodeOk(height, nodes, next, deleted, live, {}, p, n);
    }
  }

  lemma NodesRest(height: nat, nodes: Nodes, next: Links, deleted: set<Id>, live: set<Id>, gone: set<Id>, prio: int)
    requires NodesOk(height, nodes, next, deleted, live, gone, prio)
    ensures NodesOk(height, nodes, next, deleted, live - gone, {}, prio)
  {
    assert NodeOk(height, nodes, next, deleted, live, gone, prio, HEAD);
    assert NodeOk(height, nodes, next, deleted, live, gone, prio, TAIL);
    var rest := live - gone;
    forall n ensures NodeOk(height, nodes, next, deleted, rest, {}, prio, n) {
      assert NodeOk(height, nodes, next, deleted, live, gone, prio, n);
    }
  }

  // -- Insertion at one level --

  lemma LinkLevel(nodes: Nodes, next: Links, live: set<Id>, chain: seq<Id>, i: nat, prio: int, pred: Id, succ: Id, n: Id)
    returns (chain2: seq<Id>)
    requires LevelOk(nodes, next, chain, live, {}, i) && Gap(nodes, next, live, i, prio, pred, succ)
    requires n in nodes && n !in live && nodes[n].prio == prio < nodes[succ].prio <= INT_MAX && i <= nodes[n].top
    requires nodes[TAIL].prio == INT_MAX
    requires (n, i) in next && next[(n, i)] == Link(succ, false)
    ensures LevelOk(nodes, next[(pred, i) := Link(n, false)], chain2, live + {n}, {}, i)
  {
    var k := Position(nodes, next, live, {}, chain, i, pred);
    assert Linked(nodes, next, chain, i, k) && Placed(nodes, chain, live, {}, i, n);
    chain2 := Splice(chain, k + 1, n);
    SpliceOk(nodes, next, chain, i, k, n);
    SpliceElements(chain, k + 1, n);
    forall m ensures Placed(nodes, chain2, live + {n}, {}, i, m) { assert Placed(nodes, chain, live, {}, i, m); }
  }

  // A new node with unmarked links keeps the nodes in order.
  lemma NewNodeOk(height: nat, nodes: Nodes, next: Links, next2: Links, deleted: set<Id>, live: set<Id>, prio: int, top: nat)
    requires NodesOk(height, nodes, next, deleted, live, {}, 0)
    requires INT_MIN < prio < INT_MAX && top <= height
    requires forall l | l in next && l.0 in nodes :: l in next2 && next2[l] == next[l]
    requires forall j: nat | j <= top :: (|nodes|, j) in next2 && !next2[(|nodes|, j)].marked
    ensures |nodes| !in nodes && |nodes| !in live && |nodes| !in deleted
    ensures NodesOk(height, nodes[|nodes| := Info(prio, top)], next2, deleted, live + {|nodes|}, {}, 0)
  {
    var id := |nodes|;
    assert NodeOk(height, nodes, next, deleted, live, {}, 0, id);
    var nodes2, live2 := nodes[id := Info(prio, top)], live + {id};
    forall n ensures NodeOk(height, nodes2, next2, deleted, live2, {}, 0, n) {
      assert NodeOk(height, nodes, next, deleted, live, {}, 0, n);
    }
  }

  // New nodes and new links of nodes off the level leave it as it is.
  lemma LevelGrows(nodes: Nodes, next: Links, nodes2: Nodes, next2: Links, chain: seq<Id>, live: set<Id>, i: nat)
    requires LevelOk(nodes, next, chain, live, {}, i)
    requires forall n | n in nodes :: n in nodes2 && nodes2[n] == nodes[n]
    requires forall n | n in nodes2 && n !in nodes :: n !in live
    requires forall l | l in next && l.0 in nodes :: l in next2 && next2[l] == next[l]
    ensures LevelOk(nodes2, next2, chain, live, {}, i)
  {
    forall a: nat ensures Linked(nodes2, next2, chain, i, a) { assert Linked(nodes, next, chain, i, a); }
    forall n ensures Placed(nodes2, chain, live, {}, i, n) { assert Placed(nodes, chain, live, {}, i, n); }
  }

  // After a new node got its links, each level and the gap found there are as before.
  lemma ReadyToLink(height: nat, nodes: Nodes, next: Links, next2: Links, deleted: set<Id>, live: set<Id>, chain: seq<Id>,
                    i: nat, prio: int, top: nat, pred: Id, succ: Id)
    requires NodesOk(height, nodes, next, deleted, live, {}, 0) && LevelOk(nodes, next, chain, live, {}, i)
    requires Gap(nodes, next, live, i, prio, pred, succ) && prio !in Prios(nodes, live) && INT_MIN < prio < INT_MAX
    requires |nodes| !in nodes && forall l | l in next && l.0 != |nodes| :: l in next2 && next2[l] == next[l]
    ensures var nodes2 := nodes[|nodes| := Info(prio, top)];
      && LevelOk(nodes2, next2, chain, live, {}, i) && Gap(nodes2, next2, live, i, prio, pred, succ)
      && prio < nodes2[succ].prio <= INT_MAX
  {
    assert NodeOk(height, nodes, next, deleted, live, {}, 0, |nodes|);
    assert NodeOk(height, nodes, next, deleted, live, {}, 0, succ);
    LevelGrows(nodes, next, nodes[|nodes| := Info(prio, top)], next2, chain, live, i);
    assert nodes[succ].prio != prio by {
      if succ != HEAD && succ != TAIL { PriosOf(nodes, live, succ); }
    }
  }

  lemma PriosPlus(nodes: Nodes, live: set<Id>, id: Id, prio: int, top: nat)
    requires id !in nodes && id != HEAD && id != TAIL
    ensures Prios(nodes[id := Info(prio, top)], live + {id}) == Prios(nodes, live) + {prio}
  {
    var nodes2, live2 := nodes[id := Info(prio, top)], live + {id};
    PriosOf(nodes2, live2, id);
    forall p | p in Prios(nodes, live) ensures p in Prios(nodes2, live2) {
      var n :| n in live && n in nodes && n != HEAD && n != TAIL && nodes[n].prio == p;
      PriosOf(nodes2, live2, n);
    }
  }

  // A live node that does not reach a level is not on it.
  lemma LevelAbove(nodes: Nodes, next: Links, chain: seq<Id>, live: set<Id>, i: nat, n: Id)
    requires LevelOk(nodes, next, chain, live, {}, i) && n in nodes && nodes[n].top < i
    ensures LevelOk(nodes, next, chain, live + {n}, {}, i)
  {
    forall m ensures Placed(nodes, chain, live + {n}, {}, i, m) { assert Placed(nodes, chain, live, {}, i, m); }
  }

  // -- Marking --

  // Only marks of node v differ.
  ghost predicate OnlyMarks(next: Links, next2: Links, v: Id) {
    forall n, j | (n, j) in next ::
      (n, j) in next2 && next2[(n, j)].to == next[(n, j)].to && (n != v ==> next2[(n, j)] == next[(n, j)])
  }

  lemma MarkedDead(height: nat, nodes: Nodes, next: Links, next2: Links, deleted: set<Id>, live: set<Id>, v: Id)
    requires NodesOk(height, nodes, next, deleted, live, {}, 0) && OnlyMarks(next, next2, v)
    requires v in live && v in nodes && v != HEAD && v != TAIL
    requires forall i: nat | i <= nodes[v].top :: (v, i) in next2 && next2[(v, i)].marked
    ensures NodesOk(height, nodes, next2, deleted, live, {v}, nodes[v].prio)
  {
    var gone, prio := {v}, nodes[v].prio;
    forall n ensures NodeOk(height, nodes, next2, deleted, live, gone, prio, n) {
      assert NodeOk(height, nodes, next, deleted, live, {}, 0, n);
    }
  }

  lemma DeletedDead(height: nat, nodes: Nodes, next: Links, deleted: set<Id>, live: set<Id>, v: Id)
    requires NodesOk(height, nodes, next, deleted, live, {}, 0)
    requires v in live && v in nodes && v != HEAD && v != TAIL
    ensures NodesOk(height, nodes, next, deleted + {v}, live, {v}, nodes[v].prio)
  {
    var gone, prio, deleted2 := {v}, nodes[v].prio, deleted + {v};
    forall n ensures NodeOk(height, nodes, next, deleted2, live, gone, prio, n) {
      assert NodeOk(height, nodes, next, deleted, live, {}, 0, n);
    }
  }

  lemma LevelMarked(nodes: Nodes, next: Links, next2: Links, chain: seq<Id>, live: set<Id>, i: nat, v: Id)
    requires LevelOk(nodes, next, chain, live, {}, i) && OnlyMarks(next, next2, v)
    ensures LevelOk(nodes, next2, chain, live, {}, i)
  {
    forall a: nat ensures Linked(nodes, next2, chain, i, a) { assert Linked(nodes, next, chain, i, a); }
  }

  // -- The minimum --

  // The bottom level leads through every queued node in order.
  lemma FirstLive(nodes: Nodes, next: Links, deleted: set<Id>, live: set<Id>, chain: seq<Id>, k: nat, n: Id)
    requires LevelOk(nodes, next, chain, live, {}, 0) && k < |chain| && forall a | 0 < a < k :: chain[a] in deleted
    requires n in live && n in nodes && n != HEAD && n !in deleted
    ensures chain[k] in nodes && nodes[chain[k]].prio <= nodes[n].prio
  {
    var a := Position(nodes, next, live, {}, chain, 0, n);
    if k < a { Sorted(nodes, next, chain, 0, k, a); }
  }

  // -- Levels as sublists --

  predicate IsSublist(a: seq<Id>, b: seq<Id>)
    decreases |b|
  {
    a == [] || (b != [] && (if a[0] == b[0] then IsSublist(a[1..], b[1..]) else IsSublist(a, b[1..])))
  }

  ghost predicate Increasing(nodes: Nodes, s: seq<Id>) {
    && (forall a | 0 <= a < |s| :: s[a] in nodes)
    && (forall a, b | 0 <= a < b < |s| :: nodes[s[a]].prio < nodes[s[b]].prio)
  }

  lemma {:induction false} SublistOf(nodes: Nodes, a: seq<Id>, b: seq<Id>)
    requires Increasing(nodes, a) && Increasing(nodes, b) && forall n | n in a :: n in b
    ensures IsSublist(a, b)
    decreases |b|
  {
    if a != [] {
      assert a[0] in b;
      if a[0] == b[0] {
        forall n | n in a[1..] ensures n in b[1..] {
          assert n in a && n != a[0];
        }
        SublistOf(nodes, a[1..], b[1..]);
      } else {
        forall n | n in a ensures n in b[1..] {
          var k :| 0 <= k < |a| && a[k] == n;
          var l :| 0 <= l < |b| && b[l] == a[0];
          assert n != b[0];
        }
        SublistOf(nodes, a, b[1..]);
      }
    }
  }

  /** Each level is a sublist of the level below it, and every level is strictly sorted. */
  lemma LevelIsSublist(nodes: Nodes, next: Links, live: set<Id>, above: seq<Id>, below: seq<Id>, i: nat)
    requires LevelOk(nodes, next, above, live, {}, i + 1) && LevelOk(nodes, next, below, live, {}, i)
    ensures Increasing(nodes, above) && Increasing(nodes, below) && IsSublist(above, below)
  {
    ChainIncreasing(nodes, next, above, i + 1);
    ChainIncreasing(nodes, next, below, i);
    forall n | n in above ensures n in below {
      assert Placed(nodes, above, live, {}, i + 1, n) && Placed(nodes, below, live, {}, i, n);
    }
    SublistOf(nodes, above, below);
  }

  lemma ChainIncreasing(nodes: Nodes, next: Links, chain: seq<Id>, i: nat)
    requires ChainOk(nodes, next, chain, i)
    ensures Increasing(nodes, chain)
  {
    forall a, b | 0 <= a < b < |chain|
      ensures chain[a] in nodes && chain[b] in nodes && nodes[chain[a]].prio < nodes[chain[b]].prio
    {
      Sorted(nodes, next, chain, i, a, b);
    }
    assert chain[|chain| - 1] in nodes;
    forall a | 0 <= a < |chain| ensures chain[a] in nodes { assert Linked(nodes, next, chain, i, a); }
  }

  // -- The empty list --

  lemma EmptyNodes(height: nat)
    ensures NodesOk(height, EndNodes(height), EndLinks(height), {}, {HEAD, TAIL}, {}, 0)
  {
    var nodes, live: set<Id> := EndNodes(height), {HEAD, TAIL};
    assert nodes.Keys == live && |nodes| == |nodes.Keys|;
    forall n ensures NodeOk(height, nodes, EndLinks(height), {}, live, {}, 0, n) { }
  }

  lemma EmptyLevel(height: nat, i: nat)
    requires i <= height
    ensures LevelOk(EndNodes(height), EndLinks(height), [HEAD, TAIL], {HEAD, TAIL}, {}, i)
  {
    var nodes, next, chain, live: set<Id> := EndNodes(height), EndLinks(height), [HEAD, TAIL], {HEAD, TAIL};
    forall a: nat ensures Linked(nodes, next, chain, i, a) { }
    forall n ensures Placed(nodes, chain, live, {}, i, n) { }
  }

  // -- The list --

  class SkipList {
    const height: nat
    var nodes: Nodes
    var next: Links
    var deleted: set<Id>
    ghost var live: set<Id>
    ghost var levels: seq<seq<Id>>

    // Every node is live or off the list, but for the dead ones in gone.
    ghost predicate Shape(gone: set<Id>, prio: int)
      reads this
    {
      && NodesOk(height, nodes, next, deleted, live, gone, prio)
      && |levels| == height + 1
      && forall i: nat :: i < |levels| ==> LevelOk(nodes, next, levels[i], live, {}, i)
    }

    ghost predicate Valid()
      reads this
    {
      Shape({}, 0)
    }

    constructor (height: nat)
      ensures Valid() && this.height == height && Prios(nodes, live) == {}
    {
      this.height := height;
      nodes := EndNodes(height);
      next := EndLinks(height);
      deleted := {};
      live := {HEAD, TAIL};
      levels := seq(height + 1, _ => [HEAD, TAIL]);
      new;
      EmptyNodes(height);
      forall i: nat | i < |levels| ensures LevelOk(nodes, next, levels[i], live, {}, i) { EmptyLevel(height, i); }
    }

    // The compare-and-swap of an unmarked link.
    method Cas(n: Id, i: nat, expected: Id, desired: Link) returns (ok: bool)
      requires (n, i) in next
      modifies this`next
      ensures ok == (old(next)[(n, i)] == Link(expected, false))
      ensures next == if ok then old(next)[(n, i) := desired] else old(next)
    {
      ok := next[(n, i)] == Link(expected, false);
      if ok { next := next[(n, i) := desired]; }
    }

    // One level of the search: dead nodes are unlinked and nodes below the priority are passed.
    method SearchLevel(prio: int, i: nat, start: Id, ghost gone: set<Id>, ghost chain0: seq<Id>)
      returns (pred: Id, curr: Id, ghost chain: seq<Id>)
      requires NodesOk(height, nodes, next, deleted, live, gone, prio) && i <= height && prio < INT_MAX
      requires LevelOk(nodes, next, chain0, live, {}, i)
      requires start in live - gone && start in nodes && i <= nodes[start].top && nodes[start].prio < prio
      modifies this`next
      ensures NodesOk(height, nodes, next, deleted, live, gone, prio) && SameElsewhere(old(next), next, i)
      ensures LevelOk(nodes, next, chain, live - gone, {}, i)
      ensures Gap(nodes, next, live - gone, i, prio, pred, curr)
    {
      pred, chain := start, chain0;
      ghost var k: nat := Position(nodes, next, live, gone, chain, i, pred);
      WalkingAt(height, nodes, next, deleted, live, gone, prio, chain, i, k);
      curr := next[(pred, i)].to;
      while true
        invariant Walking(height, nodes, next, deleted, live, gone, prio, chain, i, k)
        invariant chain[k] == pred && chain[k + 1] == curr && SameElsewhere(old(next), next, i)
        decreases |chain| - k
      {
        var link := next[(curr, i)];
        while link.marked || curr in deleted
          invariant Walking(height, nodes, next, deleted, live, gone, prio, chain, i, k)
          invariant chain[k] == pred && chain[k + 1] == curr && SameElsewhere(old(next), next, i)
          invariant link == next[(curr, i)]
          decreases |chain|
        {
          SnipKeeps(height, nodes, next, deleted, live, gone, prio, chain, i, k);
          var snip := Cas(pred, i, curr, Link(link.to, false));
          assert snip;   // alone, no thread has to start over
          chain := Cut(chain, k + 1);
          curr := next[(pred, i)].to;
          link := next[(curr, i)];
        }
        if nodes[curr].prio < prio {
          StepOverKeeps(height, nodes, next, deleted, live, gone, prio, chain, i, k);
          pred, curr, k := curr, link.to, k + 1;
        } else {
          break;
        }
      }
      ArriveInGap(height, nodes, next, deleted, live, gone, prio, chain, i, k);
    }

    /** The search. It fills preds and succs, and unlinks the dead nodes of the priority it looks for. */
    method FindNode(prio: int, preds: array<Id>, succs: array<Id>, ghost gone: set<Id>) returns (found: bool)
      requires Shape(gone, prio) && INT_MIN < prio < INT_MAX
      requires preds.Length == succs.Length == height + 1 && preds != succs
      modifies this`next, this`live, this`levels, preds, succs
      ensures Valid() && live == old(live) - gone
      ensures forall i: nat | i <= height :: Gap(nodes, next, live, i, prio, preds[i], succs[i])
      ensures succs[0] in nodes && nodes[succs[0]].prio == prio <==> found
      ensures found == (prio in Prios(nodes, live))
    {
      var pred, curr := HEAD, TAIL;
      var i := height;
      assert NodeOk(height, nodes, next, deleted, live, gone, prio, HEAD);
      while i >= 0
        invariant -1 <= i <= height
        invariant NodesOk(height, nodes, next, deleted, live, gone, prio) && |levels| == height + 1
        invariant live == old(live)
        invariant forall j: nat | i < j <= height :: LevelOk(nodes, next, levels[j], live - gone, {}, j)
        invariant forall j: nat | j <= i :: LevelOk(nodes, next, levels[j], live, {}, j)
        invariant forall j: nat | i < j <= height :: Gap(nodes, next, live - gone, j, prio, preds[j], succs[j])
        invariant pred in live - gone && pred in nodes && i <= nodes[pred].top && nodes[pred].prio < prio
        invariant i < height ==> curr == succs[i + 1]
      {
        ghost var next0 := next;
        ghost var chain;
        pred, curr, chain := SearchLevel(prio, i, pred, gone, levels[i]);
        forall j: nat | j <= height && j != i && LevelOk(nodes, next0, levels[j], if j < i then live else live - gone, {}, j)
          ensures LevelOk(nodes, next, levels[j], if j < i then live else live - gone, {}, j)
        {
          LevelStable(nodes, next0, next, levels[j], if j < i then live else live - gone, {}, i, j);
        }
        preds[i] := pred;
        succs[i] := curr;
        levels := levels[i := chain];
        i := i - 1;
      }
      live := live - gone;
      NodesRest(height, nodes, next, deleted, old(live), gone, prio);
      ShapeAny(height, nodes, next, deleted, live, prio, 0);
      found := nodes[curr].prio == prio;
      FoundIff(height, nodes, next, deleted, live, levels[0], prio, preds[0], succs[0]);
    }

    /** Inserts a priority at a level drawn at random. It refuses a priority that is queued already. */
    method Insert(prio: int, top: nat) returns (inserted: bool)
      requires Valid() && INT_MIN < prio < INT_MAX && IsLevel(height, top)
      modifies this
      ensures Valid()
      ensures inserted == (prio !in old(Prios(nodes, live)))
      ensures Prios(nodes, live) == old(Prios(nodes, live)) + {prio}
      ensures inserted ==> |old(nodes)| in live && |old(nodes)| in nodes && nodes[|old(nodes)|] == Info(prio, top)
    {
      var preds, succs := new Id[height + 1], new Id[height + 1];
      ShapeAny(height, nodes, next, deleted, live, 0, prio);
      var found := FindNode(prio, preds, succs, {});
      if found { return false; }
      ghost var nodes0, next0, live0 := nodes, next, live;
      var id := |nodes|;
      nodes := nodes[id := Info(prio, top)];
      SetLinks(id, top, succs);
      assert NodeOk(height, nodes0, next0, deleted, live0, {}, 0, id);
      NewNodeOk(height, nodes0, next0, next, deleted, live0, prio, top);
      live := live0 + {id};
      forall j: nat | j <= height
        ensures LevelOk(nodes, next, levels[j], live0, {}, j) && Gap(nodes, next, live0, j, prio, preds[j], succs[j])
        ensures succs[j] in nodes && prio < nodes[succs[j]].prio <= INT_MAX
      {
        assert Gap(nodes0, next0, live0, j, prio, preds[j], succs[j]);
        ReadyToLink(height, nodes0, next0, next, deleted, live0, levels[j], j, prio, top, preds[j], succs[j]);
      }
      PriosPlus(nodes0, live0, id, prio, top);
      LinkLevels(id, prio, top, preds, succs, live0);
      return true;
    }

    // A new node's links lead to its successors.
    method SetLinks(id: Id, top: nat, succs: array<Id>)
      requires top < succs.Length
      modifies this`next
      ensures forall l | l in old(next) && l.0 != id :: l in next && next[l] == old(next)[l]
      ensures forall j: nat | j <= top :: (id, j) in next && next[(id, j)] == Link(succs[j], false)
    {
      for i := 0 to top + 1
        invariant forall l | l in old(next) && l.0 != id :: l in next && next[l] == old(next)[l]
        invariant forall j: nat | j < i :: (id, j) in next && next[(id, j)] == Link(succs[j], false)
      {
        next := next[(id, i) := Link(succs[i], false)];
      }
    }

    // A new node is linked into its levels from the bottom up.
    method LinkLevels(id: Id, prio: int, top: nat, preds: array<Id>, succs: array<Id>, ghost live0: set<Id>)
      requires NodesOk(height, nodes, next, deleted, live, {}, 0) && |levels| == height + 1 && live == live0 + {id}
      requires id in nodes && nodes[id] == Info(prio, top) && id !in live0 && top <= height
      requires preds.Length == succs.Length == height + 1
      requires forall j: nat | j <= height :: LevelOk(nodes, next, levels[j], live0, {}, j)
      requires forall j: nat | j <= height :: Gap(nodes, next, live0, j, prio, preds[j], succs[j])
      requires forall j: nat | j <= height :: succs[j] in nodes && prio < nodes[succs[j]].prio <= INT_MAX
      requires forall j: nat | j <= top :: (id, j) in next && next[(id, j)] == Link(succs[j], false)
      modifies this`next, this`levels
      ensures Valid()
    {
      for i := 0 to top + 1
        invariant NodesOk(height, nodes, next, deleted, live, {}, 0) && |levels| == height + 1
        invariant forall j: nat | j < i :: LevelOk(nodes, next, levels[j], live, {}, j)
        invariant forall j: nat | i <= j <= height :: LevelOk(nodes, next, levels[j], live0, {}, j)
        invariant forall j: nat | i <= j <= height :: Gap(nodes, next, live0, j, prio, preds[j], succs[j])
        invariant forall j: nat | j <= top :: (id, j) in next && next[(id, j)] == Link(succs[j], false)
      {
        ghost var next1 := next;
        assert Gap(nodes, next, live0, i, prio, preds[i], succs[i]);
        ghost var chain := LinkLevel(nodes, next, live0, levels[i], i, prio, preds[i], succs[i], id);
        var linked := Cas(preds[i], i, succs[i], Link(id, false));
        assert linked;   // alone, no level has to be searched again
        MarksKept(height, nodes, next1, next, deleted, live, {}, 0);
        forall j: nat | j <= height && j != i && LevelOk(nodes, next1, levels[j], if j < i then live else live0, {}, j)
          ensures LevelOk(nodes, next, levels[j], if j < i then live else live0, {}, j)
        {
          LevelStable(nodes, next1, next, levels[j], if j < i then live else live0, {}, i, j);
        }
        levels := levels[i := chain];
      }
      forall j: nat | top < j <= height ensures LevelOk(nodes, next, levels[j], live, {}, j) {
        LevelAbove(nodes, next, levels[j], live0, j, id);
      }
    }

    /** Removes a priority: it marks the node's links from the top down and lets a search unlink the node. The nodes in
        gone, dead already, are unlinked without being counted as a removal. */
    method Remove(prio: int, ghost gone: set<Id>) returns (removed: bool)
      requires Shape(gone, prio) && INT_MIN < prio < INT_MAX
      modifies this
      ensures Valid()
      ensures removed == (gone == {} && prio in old(Prios(nodes, live)))
      ensures Prios(nodes, live) == old(Prios(nodes, live)) - {prio}
    {
      var preds, succs := new Id[height + 1], new Id[height + 1];
      PriosMinus(height, nodes, next, deleted, live, gone, prio, levels[0]);
      var found := FindNode(prio, preds, succs, gone);
      if !found { return false; }
      var v := succs[0];
      ghost var next0 := next;
      assert NodeOk(height, nodes, next, deleted, live, {}, 0, v);
      Mark(v);
      MarkedDead(height, nodes, next0, next, deleted, live, v);
      forall i: nat | i < |levels| ensures LevelOk(nodes, next, levels[i], live, {}, i) {
        LevelMarked(nodes, next0, next, levels[i], live, i, v);
      }
      PriosMinus(height, nodes, next, deleted, live, {v}, prio, levels[0]);
      found := FindNode(prio, preds, succs, {v});
      return true;
    }

    // The links of node v are marked from its top level down to the bottom.
    method Mark(v: Id)
      requires v in nodes && forall i: nat | i <= nodes[v].top :: (v, i) in next && !next[(v, i)].marked
      modifies this`next
      ensures OnlyMarks(old(next), next, v)
      ensures forall i: nat | i <= nodes[v].top :: (v, i) in next && next[(v, i)].marked
    {
      var level := nodes[v].top;
      while level >= 1
        invariant 0 <= level <= nodes[v].top && OnlyMarks(old(next), next, v)
        invariant forall i: nat | i <= nodes[v].top :: (v, i) in next && next[(v, i)].marked == (level < i)
      {
        var link := next[(v, level)];
        while !link.marked
          invariant OnlyMarks(old(next), next, v) && (v, level) in next && link == next[(v, level)]
          invariant forall i: nat | i <= nodes[v].top && i != level :: (v, i) in next && next[(v, i)].marked == (level < i)
          decreases if link.marked then 0 else 1
        {
          var ok := Cas(v, level, link.to, Link(link.to, true));
          link := next[(v, level)];
        }
        level := level - 1;
      }
      var link := next[(v, 0)];
      var mine := Cas(v, 0, link.to, Link(link.to, true));
      assert mine;   // alone, no other call has marked the node
    }

    // The first node of the bottom level that is not deleted, wherever deleted flags may be set.
    method FindMin() returns (min: Option<Id>)
      requires |levels| > 0 && LevelOk(nodes, next, levels[0], live, {}, 0) && live <= nodes.Keys && HEAD in live
      ensures min.None? ==> forall n | n in live && n != HEAD && n != TAIL :: n in deleted
      ensures min.Some? ==> min.value in live && min.value !in deleted && min.value != HEAD && min.value != TAIL
      ensures min.Some? ==> forall n | n in live && n != HEAD && n !in deleted :: nodes[min.value].prio <= nodes[n].prio
    {
      ghost var chain := levels[0];
      ghost var k: nat := 1;
      assert Linked(nodes, next, chain, 0, 0);
      var curr := next[(HEAD, 0)].to;
      while curr != TAIL
        invariant 0 < k < |chain| && chain[k] == curr
        invariant forall a | 0 < a < k :: chain[a] in deleted
        decreases |chain| - k
      {
        assert Linked(nodes, next, chain, 0, k) && Placed(nodes, chain, live, {}, 0, curr);
        if curr !in deleted {
          forall n | n in live && n != HEAD && n !in deleted ensures nodes[curr].prio <= nodes[n].prio {
            FirstLive(nodes, next, deleted, live, chain, k, n);
          }
          Distinct(nodes, next, chain, 0, 0);
          return Some(curr);
        } else {
          curr, k := next[(curr, 0)].to, k + 1;
        }
      }
      Distinct(nodes, next, chain, 0, k);
      forall n | n in live && n != HEAD && n != TAIL ensures n in deleted {
        var a := Position(nodes, next, live, {}, chain, 0, n);
      }
      return None;
    }

    // The first undeleted node gets its deleted flag; alone, the exchange finds the flag clear.
    method FindAndMarkMin() returns (min: Option<Id>)
      requires Valid()
      modifies this`deleted
      ensures min.None? ==> Prios(nodes, live) == {} && Valid()
      ensures min.Some? ==>
        && min.value in nodes && Shape({min.value}, nodes[min.value].prio) && nodes[min.value].prio in Prios(nodes, live)
        && forall p | p in Prios(nodes, live) :: nodes[min.value].prio <= p
    {
      forall n | n in live ensures n in nodes && n !in deleted {
        assert NodeOk(height, nodes, next, deleted, live, {}, 0, n);
      }
      min := FindMin();
      if min.Some? {
        PriosOf(nodes, live, min.value);
        DeletedDead(height, nodes, next, deleted, live, min.value);
        deleted := deleted + {min.value};
      }
    }

    /** Removes the smallest priority and returns it, or INT_MIN when the queue is empty. Setting the deleted flag is what
        removes the node: the call of remove that follows finds it unlinked, and its result is ignored. */
    method RemoveMin() returns (prio: int)
      requires Valid()
      modifies this
      ensures Valid()
      ensures old(Prios(nodes, live)) == {} ==> prio == INT_MIN && Prios(nodes, live) == {}
      ensures old(Prios(nodes, live)) != {} ==>
        && prio in old(Prios(nodes, live)) && (forall p | p in old(Prios(nodes, live)) :: prio <= p)
        && Prios(nodes, live) == old(Prios(nodes, live)) - {prio}
    {
      var node := FindAndMarkMin();
      if node.None? { return INT_MIN; }
      prio := nodes[node.value].prio;
      assert NodeOk(height, nodes, next, deleted, live, {node.value}, prio, node.value);
      var removed := Remove(prio, {node.value});
    }
  }
}
