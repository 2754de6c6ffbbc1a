/** The set that the concurrent skip list holds: the nodes on the bottom chain that are neither claimed nor removed. When
    it only changes as a set should, and exactly when a step loses a node. */
module SkipListSet {
  import opened Wrappers
  import opened SkipListNodes
  import opened SkipListSteps
  import opened SkipListRuns

  // -- The bottom chain under a swing of one link --

  // Position on the bottom level.
  predicate Earlier(s: State, n: Id, m: Id) { n in s.nodes && m in s.nodes && s.nodes[n].prio < s.nodes[m].prio }

  // All later nodes of a chain come later in the order.
  lemma ChainLater(s: State, n: Id, m: Id)
    requires Shared(s) && Reaches(s, n, 0) && m in Chain(s, 0, n)
    ensures m in s.nodes && (m == n || Earlier(s, n, m))
  {
    var chain := Chain(s, 0, n);
    var k :| 0 <= k < |chain| && chain[k] == m;
    if k > 0 { ChainSorted(s, 0, n, 0, k); }
  }

  predicate SameTo(s: State, s2: State, n: Id) {
    (n, 0) in s.next ==> (n, 0) in s2.next && s2.next[(n, 0)].to == s.next[(n, 0)].to
  }

  // The chain from n on only depends on the links of n and later nodes.
  lemma {:induction false} ChainSame(s: State, s2: State, n: Id)
    requires Shared(s) && Shared(s2) && Extends(s, s2) && Reaches(s, n, 0)
    requires forall m | m == n || Earlier(s, n, m) :: SameTo(s, s2, m)
    ensures Reaches(s2, n, 0) && Chain(s2, 0, n) == Chain(s, 0, n)
    decreases INT_MAX - s.nodes[n].prio
  {
    assert NodeOk(s, n) && NodeOk(s2, n);
    if n != TAIL {
      assert LinkOk(s, n, 0) && LinkOk(s2, n, 0);
      var to := s.next[(n, 0)].to;
      assert SameTo(s, s2, n) && NodeOk(s, to);
      forall m | m == to || Earlier(s, to, m) ensures SameTo(s, s2, m) { assert Earlier(s, n, m); }
      ChainSame(s, s2, to);
    }
  }

  // s2 is s with the bottom link of p swung to a later node.
  ghost predicate SwungTo(s: State, s2: State, p: Id, desired: Link) {
    && Shared(s) && Shared(s2) && s2.nodes == s.nodes && s2.height == s.height && s.deleted <= s2.deleted
    && (p, 0) in s.next && !s.next[(p, 0)].marked && s2.next == s.next[(p, 0) := desired]
    && Earlier(s, p, desired.to)
  }

  // The chain behind p is unchanged by the swing.
  lemma BehindSame(s: State, s2: State, p: Id, desired: Link, n: Id)
    requires SwungTo(s, s2, p, desired) && Reaches(s, n, 0) && Earlier(s, p, n)
    ensures Reaches(s2, n, 0) && Chain(s2, 0, n) == Chain(s, 0, n)
  {
    forall m | m == n || Earlier(s, n, m) ensures SameTo(s, s2, m) { }
    ChainSame(s, s2, n);
  }

  // A chain through p keeps its nodes up to p and continues where p's new link leads; other chains stay as they are.
  ghost predicate SwungChain(s: State, s2: State, p: Id, desired: Link, q: Id, n: Id)
    requires SwungTo(s, s2, p, desired) && Reaches(s, q, 0) && Reaches(s2, q, 0) && Reaches(s, desired.to, 0)
  {
    n in Chain(s2, 0, q) <==>
      if p in Chain(s, 0, q) then n == p || (n in Chain(s, 0, q) && Earlier(s, n, p)) || n in Chain(s, 0, desired.to)
      else n in Chain(s, 0, q)
  }

  lemma ChainStep(s: State, q: Id)
    requires Shared(s) && Reaches(s, q, 0) && q != TAIL
    ensures (q, 0) in s.next && Reaches(s, s.next[(q, 0)].to, 0) && Earlier(s, q, s.next[(q, 0)].to)
    ensures Chain(s, 0, q) == [q] + Chain(s, 0, s.next[(q, 0)].to)
  {
    assert NodeOk(s, q);
    assert LinkOk(s, q, 0);
  }

  lemma {:induction false} SwungFrom(s: State, s2: State, p: Id, desired: Link, q: Id, n: Id)
    requires SwungTo(s, s2, p, desired) && Reaches(s, q, 0)
    ensures Reaches(s2, q, 0) && Reaches(s, desired.to, 0) && SwungChain(s, s2, p, desired, q, n)
    decreases INT_MAX - s.nodes[q].prio
  {
    assert LinkOk(s2, p, 0);
    assert NodeOk(s, q);
    if q == p {
      assert p != TAIL by { assert NodeOk(s, desired.to); }
      ChainStep(s, p);
      ChainStep(s2, p);
      BehindSame(s, s2, p, desired, desired.to);
      if n in Chain(s, 0, p) { ChainLater(s, p, n); }
      assert p in Chain(s, 0, p);
    } else if q != TAIL {
      ChainStep(s, q);
      ChainStep(s2, q);
      var to := s.next[(q, 0)].to;
      assert NodeOk(s, to);
      SwungFrom(s, s2, p, desired, to, n);
      if p in Chain(s, 0, to) { ChainLater(s, to, p); }
    } else {
      assert p != TAIL by { assert NodeOk(s, desired.to); }
    }
  }

  // -- The set --

  // Node n is a queued element.
  predicate Alive(s: State, n: Id) {
    n in s.nodes && n != HEAD && n != TAIL && n !in s.deleted && (n, 0) in s.next && !s.next[(n, 0)].marked
  }

  lemma HeadReaches(s: State)
    requires Shared(s)
    ensures Reaches(s, HEAD, 0)
  {
  }

  ghost predicate OnChain(s: State, n: Id)
    requires Shared(s)
  {
    n in Chain(s, 0, HEAD)
  }

  // A chain is what comes before one of its nodes, and the chain from that node on.
  lemma {:induction false} ChainSplit(s: State, q: Id, p: Id, n: Id)
    requires Shared(s) && Reaches(s, q, 0) && p in Chain(s, 0, q)
    ensures Reaches(s, p, 0)
    ensures n in Chain(s, 0, q) <==> (n in Chain(s, 0, q) && Earlier(s, n, p)) || n in Chain(s, 0, p)
    decreases INT_MAX - s.nodes[q].prio
  {
    assert NodeOk(s, q);
    if q == p {
      if n in Chain(s, 0, q) { ChainLater(s, q, n); }
    } else {
      ChainLater(s, q, p);
      assert q != TAIL;
      ChainStep(s, q);
      var to := s.next[(q, 0)].to;
      assert NodeOk(s, to);
      ChainSplit(s, to, p, n);
    }
  }

  // Steps that leave the bottom links where they lead leave the chain as it is.
  lemma ChainKept(s: State, s2: State)
    requires Shared(s) && Shared(s2) && Extends(s, s2) && forall m :: SameTo(s, s2, m)
    ensures forall n :: OnChain(s2, n) <==> OnChain(s, n)
  {
    ChainSame(s, s2, HEAD);
  }

  lemma SwungOnChain(s: State, s2: State, p: Id, desired: Link)
    requires SwungTo(s, s2, p, desired)
    ensures Reaches(s, desired.to, 0)
    ensures forall n :: OnChain(s2, n) <==>
      if OnChain(s, p) then n == p || (OnChain(s, n) && Earlier(s, n, p)) || n in Chain(s, 0, desired.to) else OnChain(s, n)
  {
    assert LinkOk(s2, p, 0);
    forall n ensures OnChain(s2, n) <==>
      if OnChain(s, p) then n == p || (OnChain(s, n) && Earlier(s, n, p)) || n in Chain(s, 0, desired.to) else OnChain(s, n)
    {
      SwungFrom(s, s2, p, desired, HEAD, n);
    }
  }

  // -- Steps that change the bottom chain --

  // findNode unlinks a node at the bottom level.
  predicate Snips(s: State, pc: Pc) {
    pc.Snipping? && pc.c.i == 0 && Swung(s, pc.c.pred, 0, pc.curr, Link(pc.succ, false)).Some?
  }

  // insert publishes its node.
  predicate Publishes(s: State, t: Tid, pc: Pc) {
    pc.Found? && pc.goal.ToInsert? && Advance(s, t, pc).Some? && Advance(s, t, pc).value.1.Linking?
  }

  // remove marks the node's bottom link.
  predicate Marks(s: State, t: Tid, pc: Pc, n: Id) {
    pc.MarkCas? && pc.level == 0 && pc.node == n && Advance(s, t, pc).Some? && Advance(s, t, pc).value.1.Begin?
  }

  // removeMin claims the node.
  predicate ClaimsNode(s: State, t: Tid, pc: Pc, n: Id) {
    pc == MinClaim(n) && Advance(s, t, pc).Some? && Advance(s, t, pc).value.1.Begin?
  }

  lemma SnipStep(s: State, t: Tid, pc: Pc)
    requires Shared(s) && PcOk(s, pc) && Snips(s, pc)
    ensures Advance(s, t, pc).Some? && Shared(Advance(s, t, pc).value.0) && Reaches(s, pc.succ, 0)
    ensures var s2, p := Advance(s, t, pc).value.0, pc.c.pred;
      && (forall n :: Alive(s2, n) <==> Alive(s, n))
      && forall n :: OnChain(s2, n) <==>
           if OnChain(s, p) then n == p || (OnChain(s, n) && Earlier(s, n, p)) || n in Chain(s, 0, pc.succ) else OnChain(s, n)
  {
    AdvanceKeeps(s, t, pc);
    SwungOnChain(s, Advance(s, t, pc).value.0, pc.c.pred, Link(pc.succ, false));
  }

  lemma SnippedNotTail(s: State, pc: Pc)
    requires Shared(s) && PcOk(s, pc) && Snips(s, pc)
    ensures pc.curr != TAIL && Reaches(s, pc.curr, 0) && s.next[(pc.c.pred, 0)] == Link(pc.curr, false)
  {
    assert LinkOk(s, pc.curr, 0) && LinkOk(s, pc.c.pred, 0);
  }

  // What lies on a chain through p but neither up to p nor behind succ.
  lemma Between(s: State, p: Id, n: Id)
    requires Shared(s) && OnChain(s, p) && p != TAIL && Reaches(s, p, 0)
    ensures (p, 0) in s.next && Reaches(s, s.next[(p, 0)].to, 0)
    ensures OnChain(s, n) && n != p && !Earlier(s, n, p) <==> n in Chain(s, 0, s.next[(p, 0)].to)
  {
    HeadReaches(s);
    ChainSplit(s, HEAD, p, n);
    ChainStep(s, p);
    if n in Chain(s, 0, s.next[(p, 0)].to) { ChainLater(s, s.next[(p, 0)].to, n); }
  }

  // The nodes a snip takes off the chain: the one unlinked, and those its link leads to now but did not when it was read.
  lemma SnipDrops(s: State, t: Tid, pc: Pc, n: Id)
    requires Shared(s) && PcOk(s, pc) && Snips(s, pc) && OnChain(s, pc.c.pred)
    ensures Advance(s, t, pc).Some? && Shared(Advance(s, t, pc).value.0) && Reaches(s, pc.succ, 0)
    ensures pc.curr != TAIL && Reaches(s, pc.curr, 0) && (pc.curr, 0) in s.next && Reaches(s, s.next[(pc.curr, 0)].to, 0)
    ensures OnChain(s, n) && !OnChain(Advance(s, t, pc).value.0, n) <==>
      (n == pc.curr || n in Chain(s, 0, s.next[(pc.curr, 0)].to)) && n !in Chain(s, 0, pc.succ)
  {
    SnipStep(s, t, pc);
    SnippedNotTail(s, pc);
    Between(s, pc.c.pred, n);
    ChainStep(s, pc.curr);
  }

  // A publication's parts.
  lemma PublishParts(s: State, t: Tid, pc: Pc)
    requires Shared(s) && PcOk(s, pc) && Publishes(s, t, pc)
    ensures 0 in pc.path.preds && 0 in pc.path.succs && pc.path.succs[0] in s.nodes
    ensures forall i | 0 <= i <= pc.goal.top :: i in pc.path.succs
    ensures s.nodes[pc.path.succs[0]].prio != pc.prio && Publish(s, pc.prio, pc.goal.top, pc.path) == Advance(s, t, pc)
    ensures var s1 := Alloc(s, pc.prio, pc.goal.top, pc.path.succs);
      Swung(s1, pc.path.preds[0], 0, pc.path.succs[0], Link(|s.nodes|, false)) == Some(Advance(s, t, pc).value.0)
  {
  }

  lemma AllocKeeps(s: State, t: Tid, pc: Pc)
    requires Shared(s) && PcOk(s, pc) && Publishes(s, t, pc)
    ensures 0 in pc.path.succs && forall i | 0 <= i <= pc.goal.top :: i in pc.path.succs
    ensures var s1, id := Alloc(s, pc.prio, pc.goal.top, pc.path.succs), |s.nodes|;
      && Extends(s, s1) && Shared(s1) && id !in s.nodes && id in s1.nodes && s1.nodes[id] == Info(pc.prio, pc.goal.top)
      && id != HEAD && id != TAIL && id !in s1.deleted
      && (id, 0) in s1.next && s1.next[(id, 0)] == Link(pc.path.succs[0], false)
      && (forall n | n != id :: Alive(s1, n) <==> Alive(s, n))
      && forall n :: OnChain(s1, n) <==> OnChain(s, n)
  {
    PublishParts(s, t, pc);
    AllocOk(s, pc.prio, pc.goal.top, pc.path.succs);
    AllocExtends(s, pc.prio, pc.goal.top, pc.path.succs);
    var s1, id := Alloc(s, pc.prio, pc.goal.top, pc.path.succs), |s.nodes|;
    assert NodeOk(s, id);
    forall m ensures SameTo(s, s1, m) { }
    ChainKept(s, s1);
  }

  lemma NewNotOnChain(s: State, id: Id)
    requires Shared(s) && id !in s.nodes
    ensures !OnChain(s, id)
  {
    HeadReaches(s);
    if OnChain(s, id) { ChainLater(s, HEAD, id); }
  }

  // Swinging p's link to a node whose own link leads where p's did takes that node in, if p is on the chain.
  lemma Joins(s: State, s2: State, p: Id, id: Id)
    requires SwungTo(s, s2, p, Link(id, false)) && !OnChain(s, id) && id != TAIL && p != TAIL && Reaches(s, p, 0)
    requires (id, 0) in s.next && s.next[(id, 0)] == s.next[(p, 0)]
    ensures forall n :: OnChain(s2, n) <==> OnChain(s, n) || (n == id && OnChain(s, p))
  {
    SwungOnChain(s, s2, p, Link(id, false));
    ChainStep(s, id);
    forall n ensures OnChain(s2, n) <==> OnChain(s, n) || (n == id && OnChain(s, p)) {
      if OnChain(s, p) { Between(s, p, n); }
    }
  }

  lemma PublishSwings(s: State, t: Tid, pc: Pc)
    requires Shared(s) && PcOk(s, pc) && Publishes(s, t, pc)
    ensures 0 in pc.path.preds && 0 in pc.path.succs && forall i | 0 <= i <= pc.goal.top :: i in pc.path.succs
    ensures var s1, s2, p := Alloc(s, pc.prio, pc.goal.top, pc.path.succs), Advance(s, t, pc).value.0, pc.path.preds[0];
      && SwungTo(s1, s2, p, Link(|s.nodes|, false)) && p != TAIL && Reaches(s1, p, 0) && p != |s.nodes|
      && s1.next[(p, 0)] == Link(pc.path.succs[0], false) && s2.deleted == s1.deleted
  {
    PublishParts(s, t, pc);
    AllocKeeps(s, t, pc);
    AdvanceKeeps(s, t, pc);
    assert Reaches(s, pc.path.preds[0], 0) && s.nodes[pc.path.preds[0]].prio < pc.prio;
  }

  // s1 is s with a new node id, and s2 is s1 with p linked to it.
  ghost predicate Published(s: State, s1: State, s2: State, p: Id, id: Id, prio: int) {
    && Shared(s) && SwungTo(s1, s2, p, Link(id, false)) && s2.deleted == s1.deleted
    && id !in s.nodes && id in s1.nodes && s1.nodes[id].prio == prio && id != HEAD && id != TAIL && id != p
    && p != TAIL && Reaches(s1, p, 0) && (id, 0) in s1.next && s1.next[(id, 0)] == s1.next[(p, 0)] && id !in s1.deleted
    && (forall n | n != id :: Alive(s1, n) <==> Alive(s, n))
    && forall n :: OnChain(s1, n) <==> OnChain(s, n)
  }

  lemma PublishedSet(s: State, s1: State, s2: State, p: Id, id: Id, prio: int)
    requires Published(s, s1, s2, p, id, prio)
    ensures id in s2.nodes && s2.nodes[id].prio == prio && Alive(s2, id)
    ensures forall n | n != id :: Alive(s2, n) <==> Alive(s, n)
    ensures forall n :: OnChain(s2, n) <==> OnChain(s, n) || (n == id && OnChain(s, p))
  {
    NewNotOnChain(s, id);
    Joins(s1, s2, p, id);
    forall n | n != id ensures Alive(s2, n) <==> Alive(s, n) { assert Alive(s1, n) <==> Alive(s, n); }
  }

  // A new node joins the chain exactly if its predecessor is on it.
  lemma PublishStep(s: State, t: Tid, pc: Pc)
    requires Shared(s) && PcOk(s, pc) && Publishes(s, t, pc)
    ensures 0 in pc.path.preds && Shared(Advance(s, t, pc).value.0)
    ensures var s2, id := Advance(s, t, pc).value.0, |s.nodes|;
      && id !in s.nodes && id in s2.nodes && s2.nodes[id].prio == pc.prio && Alive(s2, id)
      && (forall n | n != id :: Alive(s2, n) <==> Alive(s, n))
      && forall n :: OnChain(s2, n) <==> OnChain(s, n) || (n == id && OnChain(s, pc.path.preds[0]))
  {
    AllocKeeps(s, t, pc);
    PublishSwings(s, t, pc);
    PublishedSet(s, Alloc(s, pc.prio, pc.goal.top, pc.path.succs), Advance(s, t, pc).value.0, pc.path.preds[0],
                 |s.nodes|, pc.prio);
  }

  // All other steps leave the chain as it is, and end no node but those marked or claimed.
  lemma OtherStep(s: State, t: Tid, pc: Pc)
    requires Shared(s) && PcOk(s, pc) && Advance(s, t, pc).Some? && !Snips(s, pc) && !Publishes(s, t, pc)
    ensures var s2 := Advance(s, t, pc).value.0;
      && Shared(s2) && s2.nodes == s.nodes
      && (forall n :: OnChain(s2, n) <==> OnChain(s, n))
      && forall n :: Alive(s2, n) <==> Alive(s, n) && !Marks(s, t, pc, n) && !ClaimsNode(s, t, pc, n)
  {
    AdvanceKeeps(s, t, pc);
    var s2 := Advance(s, t, pc).value.0;
    forall m ensures SameTo(s, s2, m) { OtherLinks(s, t, pc, m); }
    ChainKept(s, s2);
    forall n ensures Alive(s2, n) <==> Alive(s, n) && !Marks(s, t, pc, n) && !ClaimsNode(s, t, pc, n) {
      OtherLinks(s, t, pc, n);
    }
  }

  lemma OtherLinks(s: State, t: Tid, pc: Pc, n: Id)
    requires Shared(s) && PcOk(s, pc) && Advance(s, t, pc).Some? && !Snips(s, pc) && !Publishes(s, t, pc)
    ensures var s2 := Advance(s, t, pc).value.0;
      && s2.nodes == s.nodes && SameTo(s, s2, n) && ((n, 0) in s2.next <==> (n, 0) in s.next)
      && (Alive(s2, n) <==> Alive(s, n) && !Marks(s, t, pc, n) && !ClaimsNode(s, t, pc, n))
  {
  }

  // -- Runs without removeMin --

  predicate NoScan(pc: Pc) { !pc.MinTest? && !pc.MinClaim? && !pc.MinNext? }

  // Nothing is claimed, no call is about to claim, and every queued node is on the chain.
  ghost predicate Kept(s: State) {
    && Inv(s) && s.deleted == {} && (forall t | t in s.threads :: NoScan(s.threads[t]))
    && forall n :: Alive(s, n) ==> OnChain(s, n)
  }

  lemma NoScanStep(s: State, t: Tid, pc: Pc)
    requires Shared(s) && PcOk(s, pc) && NoScan(pc) && Advance(s, t, pc).Some?
    ensures NoScan(Advance(s, t, pc).value.1) && Advance(s, t, pc).value.0.deleted == s.deleted
  {
  }

  // What one step does to the set: it takes out a node by marking it, puts in a node by publishing it, or nothing.
  lemma SetStep(s: State, t: Tid, pc: Pc)
    requires Kept(s) && PcOk(s, pc) && NoScan(pc) && Advance(s, t, pc).Some?
    ensures Shared(Advance(s, t, pc).value.0)
    ensures var s2 := Advance(s, t, pc).value.0;
      && (forall n :: Alive(s2, n) ==> OnChain(s2, n))
      && forall n :: Alive(s2, n) <==> (Alive(s, n) && !Marks(s, t, pc, n)) || (Publishes(s, t, pc) && n == |s.nodes|)
  {
    var s2 := Advance(s, t, pc).value.0;
    if Snips(s, pc) {
      SnipKept(s, t, pc);
    } else if Publishes(s, t, pc) {
      PublishStep(s, t, pc);
      PublishParts(s, t, pc);
      PredKept(s, t, pc);
    } else {
      OtherStep(s, t, pc);
    }
  }

  // A link that can be swung belongs to a node that is on the chain.
  lemma PredKept(s: State, t: Tid, pc: Pc)
    requires Kept(s) && PcOk(s, pc) && Publishes(s, t, pc)
    ensures 0 in pc.path.preds && OnChain(s, pc.path.preds[0])
  {
    PublishSwings(s, t, pc);
    AllocExtends(s, pc.prio, pc.goal.top, pc.path.succs);
    var p := pc.path.preds[0];
    assert NodeOk(s, p);
    HeadReaches(s);
    assert p == HEAD || Alive(s, p);
  }

  // Without claims a snip only takes out the marked node.
  lemma SnipKept(s: State, t: Tid, pc: Pc)
    requires Kept(s) && PcOk(s, pc) && Snips(s, pc)
    ensures Advance(s, t, pc).Some? && Shared(Advance(s, t, pc).value.0)
    ensures var s2 := Advance(s, t, pc).value.0;
      (forall n :: Alive(s2, n) <==> Alive(s, n)) && forall n :: Alive(s2, n) ==> OnChain(s2, n)
  {
    SnipStep(s, t, pc);
    HeadReaches(s);
    var p := pc.c.pred;
    assert p == HEAD || Alive(s, p);
    forall n | Alive(s, n) ensures OnChain(Advance(s, t, pc).value.0, n) {
      SnipDrops(s, t, pc, n);
    }
  }

  // The positions of threads do not matter for the set.
  lemma ThreadsOnly(s: State, s2: State)
    requires Shared(s) && s2 == s.(threads := s2.threads)
    ensures Shared(s2) && forall n :: (OnChain(s2, n) <==> OnChain(s, n)) && (Alive(s2, n) <==> Alive(s, n))
  {
    SharedOnly(s, s2);
    forall m ensures SameTo(s, s2, m) { }
    ChainKept(s, s2);
  }

  lemma KeptStep(s: State, t: Tid, a: Action, s2: State)
    requires Kept(s) && Step(s, t, a, s2) && !a.CallRemoveMin?
    ensures Kept(s2)
    ensures forall n :: Alive(s, n) && !(a.Proceed? && Marks(s, t, PcOf(s, t), n)) ==> Alive(s2, n)
  {
    StepKeeps(s, t, a, s2);
    NoScanKept(s, t, a, s2);
    if a.Proceed? {
      SetStep(s, t, PcOf(s, t));
      ThreadsOnly(Advance(s, t, PcOf(s, t)).value.0, s2);
    } else {
      ThreadsOnly(s, s2);
    }
  }

  lemma NoScanKept(s: State, t: Tid, a: Action, s2: State)
    requires Kept(s) && Step(s, t, a, s2) && !a.CallRemoveMin?
    ensures s2.deleted == {} && forall u | u in s2.threads :: NoScan(s2.threads[u])
  {
    if a.Proceed? { NoScanStep(s, t, PcOf(s, t)); }
  }

  lemma {:induction false} KeptRun(states: seq<State>, tids: seq<Tid>, acts: seq<Action>, m: nat)
    requires Run(states, tids, acts) && (forall a | a in acts :: !a.CallRemoveMin?) && m < |states|
    ensures Kept(states[m])
  {
    if m == 0 {
      FreshOk(states[0].height);
      FreshHasNone(states[0].height);
    } else {
      KeptRun(states, tids, acts, m - 1);
      assert acts[m - 1] in acts && StepAt(states, tids, acts, m - 1);
      KeptStep(states[m - 1], tids[m - 1], acts[m - 1], states[m]);
    }
  }

  lemma FreshHasNone(height: nat)
    ensures forall n :: !Alive(Fresh(height), n)
  {
  }

  /** In every run without removeMin nothing is claimed, and every node that is not marked at the bottom level is on the
      bottom chain. So an insert is never lost: from its publication on the node stays queued, and reachable, until some
      remove marks it. */
  lemma {:induction false} InsertsKept(states: seq<State>, tids: seq<Tid>, acts: seq<Action>, i: nat, j: nat, n: Id)
    requires Run(states, tids, acts) && forall a | a in acts :: !a.CallRemoveMin?
    requires i <= j < |states| && Alive(states[i], n)
    requires forall k | i <= k < j && acts[k].Proceed? :: !Marks(states[k], tids[k], PcOf(states[k], tids[k]), n)
    ensures Shared(states[j]) && states[j].deleted == {} && Alive(states[j], n) && OnChain(states[j], n)
    decreases j
  {
    KeptRun(states, tids, acts, j);
    if i < j {
      InsertsKept(states, tids, acts, i, j - 1, n);
      KeptRun(states, tids, acts, j - 1);
      assert acts[j - 1] in acts && StepAt(states, tids, acts, j - 1);
      KeptStep(states[j - 1], tids[j - 1], acts[j - 1], states[j]);
    }
  }

  // -- Exactly when a step loses a node --

  // A queued node leaves the chain, or a new one does not get onto it, though nobody claimed or marked it.
  ghost predicate Lossy(s: State, s2: State)
    requires Shared(s) && Shared(s2)
  {
    exists n :: Alive(s2, n) && !OnChain(s2, n) && (n !in s.nodes || (Alive(s, n) && OnChain(s, n)))
  }

  // A snip on the chain, past a node behind which a queued node stands that does not stand behind the link read before.
  ghost predicate SnipLoses(s: State, pc: Pc)
    requires Shared(s)
  {
    && Snips(s, pc) && OnChain(s, pc.c.pred)
    && (pc.curr, 0) in s.next && Reaches(s, s.next[(pc.curr, 0)].to, 0) && Reaches(s, pc.succ, 0)
    && exists n :: Alive(s, n) && n in Chain(s, 0, s.next[(pc.curr, 0)].to) && n !in Chain(s, 0, pc.succ)
  }

  // A publication behind a node that is off the chain.
  ghost predicate PublishLoses(s: State, t: Tid, pc: Pc)
    requires Shared(s)
  {
    Publishes(s, t, pc) && 0 in pc.path.preds && !OnChain(s, pc.path.preds[0])
  }

  lemma AdvanceLossyIff(s: State, t: Tid, pc: Pc)
    requires Shared(s) && PcOk(s, pc) && Advance(s, t, pc).Some?
    ensures Shared(Advance(s, t, pc).value.0)
    ensures Lossy(s, Advance(s, t, pc).value.0) <==> SnipLoses(s, pc) || PublishLoses(s, t, pc)
  {
    var s2 := Advance(s, t, pc).value.0;
    if Snips(s, pc) {
      SnipLossyIff(s, t, pc);
    } else if Publishes(s, t, pc) {
      PublishStep(s, t, pc);
      NewNotOnChain(s, |s.nodes|);
    } else {
      OtherStep(s, t, pc);
    }
  }

  lemma SnipLossyIff(s: State, t: Tid, pc: Pc)
    requires Shared(s) && PcOk(s, pc) && Snips(s, pc)
    ensures Advance(s, t, pc).Some? && Shared(Advance(s, t, pc).value.0)
    ensures Lossy(s, Advance(s, t, pc).value.0) <==> SnipLoses(s, pc)
  {
    SnipStep(s, t, pc);
    var s2 := Advance(s, t, pc).value.0;
    if OnChain(s, pc.c.pred) {
      SnipDrops(s, t, pc, HEAD);
      forall n ensures Alive(s, n) && OnChain(s, n) && !OnChain(s2, n) <==>
        Alive(s, n) && n in Chain(s, 0, s.next[(pc.curr, 0)].to) && n !in Chain(s, 0, pc.succ)
      {
        SnipDropsAlive(s, t, pc, n);
      }
    }
  }

  lemma SnipDropsAlive(s: State, t: Tid, pc: Pc, n: Id)
    requires Shared(s) && PcOk(s, pc) && Snips(s, pc) && OnChain(s, pc.c.pred)
    ensures Advance(s, t, pc).Some? && Shared(Advance(s, t, pc).value.0) && Reaches(s, pc.succ, 0)
    ensures (pc.curr, 0) in s.next && Reaches(s, s.next[(pc.curr, 0)].to, 0)
    ensures Alive(s, n) && OnChain(s, n) && !OnChain(Advance(s, t, pc).value.0, n) <==>
      Alive(s, n) && n in Chain(s, 0, s.next[(pc.curr, 0)].to) && n !in Chain(s, 0, pc.succ)
  {
    SnipDrops(s, t, pc, n);
    assert !Alive(s, pc.curr);
  }

  /** Exactly two kinds of steps lose a node, in every reachable state: a snip at the bottom level past a node behind which
      a queued node has come to stand, and a publication behind a node that is off the chain already. */
  lemma LossyIff(states: seq<State>, tids: seq<Tid>, acts: seq<Action>, i: nat)
    requires Run(states, tids, acts) && i < |acts|
    ensures Shared(states[i]) && Shared(states[i + 1])
    ensures var pc := PcOf(states[i], tids[i]);
      Lossy(states[i], states[i + 1]) <==>
      acts[i].Proceed? && (SnipLoses(states[i], pc) || PublishLoses(states[i], tids[i], pc))
  {
    RunKeeps(states, tids, acts, i);
    RunKeeps(states, tids, acts, i + 1);
    var s, t, s2 := states[i], tids[i], states[i + 1];
    assert StepAt(states, tids, acts, i);
    if acts[i].Proceed? {
      AdvanceLossyIff(s, t, PcOf(s, t));
      ThreadsOnly(Advance(s, t, PcOf(s, t)).value.0, s2);
    } else {
      ThreadsOnly(s, s2);
    }
  }

  /** A losing snip needs a claimed node whose link has moved since it was read. */
  lemma SnipLosesBehindClaimed(states: seq<State>, tids: seq<Tid>, acts: seq<Action>, i: nat)
    requires Run(states, tids, acts) && i < |states|
    ensures Shared(states[i])
    ensures forall t :: var s, pc := states[i], PcOf(states[i], t);
      SnipLoses(s, pc) ==> pc.curr in s.deleted && s.next[(pc.curr, 0)].to != pc.succ
  {
    RunKeeps(states, tids, acts, i);
    var s := states[i];
    forall t | SnipLoses(s, PcOf(s, t))
      ensures var pc := PcOf(s, t); pc.curr in s.deleted && s.next[(pc.curr, 0)].to != pc.succ
    {
      assert PcOk(s, PcOf(s, t));
    }
  }
}
