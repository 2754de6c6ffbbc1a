/** What a concurrent removeMin claims. Its scan walks the bottom level and claims the first unclaimed node it meets. It can
    miss a smaller queued node, but only if another thread unlinks, from a node the scan stands on or has yet to reach, a
    claimed node behind which the smaller one has come to stand. */
module SkipListScan {
  import opened Wrappers
  import opened SkipListNodes
  import opened SkipListSteps
  import opened SkipListRuns
  import opened SkipListSet

  // -- What a scan at node c can still reach --

  ghost predicate Ahead(s: State, c: Id, x: Id)
    requires Shared(s)
  {
    Reaches(s, c, 0) && x in Chain(s, 0, c)
  }

  // The step from s to s2 takes the queued node x out of the way of a scan at c.
  ghost predicate Cuts(s: State, s2: State, c: Id, x: Id)
    requires Shared(s) && Shared(s2)
  {
    Ahead(s, c, x) && !Ahead(s2, c, x)
  }

  // Another thread unlinks pc.curr from a node on the way to x, and x is not behind the link that it read before.
  ghost predicate SnipCuts(s: State, pc: Pc, c: Id, x: Id)
    requires Shared(s)
  {
    && Snips(s, pc) && Reaches(s, pc.succ, 0) && Ahead(s, c, x) && Ahead(s, c, pc.c.pred)
    && Earlier(s, pc.c.pred, x) && x !in Chain(s, 0, pc.succ)
  }

  lemma BottomReaches(s: State, c: Id)
    requires Shared(s) && c in s.nodes
    ensures Reaches(s, c, 0)
  {
  }

  lemma SnipCutsIff(s: State, t: Tid, pc: Pc, c: Id, x: Id)
    requires Shared(s) && PcOk(s, pc) && Snips(s, pc) && c in s.nodes && x in s.nodes
    ensures Advance(s, t, pc).Some? && Shared(Advance(s, t, pc).value.0)
    ensures Cuts(s, Advance(s, t, pc).value.0, c, x) <==> SnipCuts(s, pc, c, x)
  {
    AdvanceKeeps(s, t, pc);
    var s2, p, desired := Advance(s, t, pc).value.0, pc.c.pred, Link(pc.succ, false);
    assert SwungTo(s, s2, p, desired);
    SwungFrom(s, s2, p, desired, c, x);
    if Ahead(s, c, p) && Ahead(s, c, x) { SamePrio(s, c, p, x); }
  }

  // Two nodes of a chain of equal priority are the same.
  lemma SamePrio(s: State, c: Id, p: Id, x: Id)
    requires Shared(s) && Ahead(s, c, p) && Ahead(s, c, x)
    ensures p == x || Earlier(s, p, x) || Earlier(s, x, p)
  {
    var chain := Chain(s, 0, c);
    var i :| 0 <= i < |chain| && chain[i] == p;
    var j :| 0 <= j < |chain| && chain[j] == x;
    if i < j { ChainSorted(s, 0, c, i, j); } else if j < i { ChainSorted(s, 0, c, j, i); }
  }

  // The swing of p's link to a node whose own link leads where p's did takes nobody out of the way.
  lemma JoinKeepsAhead(s: State, s2: State, p: Id, id: Id, c: Id, x: Id)
    requires SwungTo(s, s2, p, Link(id, false)) && id != TAIL && p != TAIL && Reaches(s, p, 0)
    requires (id, 0) in s.next && s.next[(id, 0)] == s.next[(p, 0)] && Ahead(s, c, x)
    ensures Ahead(s2, c, x)
  {
    assert LinkOk(s2, p, 0);
    SwungFrom(s, s2, p, Link(id, false), c, x);
    ChainStep(s, id);
    if Ahead(s, c, p) {
      SamePrio(s, c, p, x);
      ChainSplit(s, c, p, x);
      ChainStep(s, p);
    }
  }

  lemma AllocKeepsAhead(s: State, t: Tid, pc: Pc, c: Id, x: Id)
    requires Shared(s) && PcOk(s, pc) && Publishes(s, t, pc) && Ahead(s, c, x)
    ensures forall i | 0 <= i <= pc.goal.top :: i in pc.path.succs
    ensures var s1 := Alloc(s, pc.prio, pc.goal.top, pc.path.succs); Shared(s1) && Ahead(s1, c, x)
  {
    AllocKeeps(s, t, pc);
    AllocExtends(s, pc.prio, pc.goal.top, pc.path.succs);
    var s1 := Alloc(s, pc.prio, pc.goal.top, pc.path.succs);
    forall m ensures SameTo(s, s1, m) { }
    ChainSame(s, s1, c);
  }

  lemma PublishKeepsAhead(s: State, t: Tid, pc: Pc, c: Id, x: Id)
    requires Shared(s) && PcOk(s, pc) && Publishes(s, t, pc) && Ahead(s, c, x)
    ensures Shared(Advance(s, t, pc).value.0) && Ahead(Advance(s, t, pc).value.0, c, x)
  {
    AllocKeeps(s, t, pc);
    PublishSwings(s, t, pc);
    AllocKeepsAhead(s, t, pc, c, x);
    JoinKeepsAhead(Alloc(s, pc.prio, pc.goal.top, pc.path.succs), Advance(s, t, pc).value.0, pc.path.preds[0], |s.nodes|,
                   c, x);
  }

  lemma OtherKeepsAhead(s: State, t: Tid, pc: Pc, c: Id, x: Id)
    requires Shared(s) && PcOk(s, pc) && Advance(s, t, pc).Some? && !Snips(s, pc) && !Publishes(s, t, pc) && Ahead(s, c, x)
    ensures Shared(Advance(s, t, pc).value.0) && Ahead(Advance(s, t, pc).value.0, c, x)
  {
    AdvanceKeeps(s, t, pc);
    var s2 := Advance(s, t, pc).value.0;
    forall m ensures SameTo(s, s2, m) { OtherLinks(s, t, pc, m); }
    ChainSame(s, s2, c);
  }

  lemma AdvanceCutsIff(s: State, t: Tid, pc: Pc, c: Id, x: Id)
    requires Shared(s) && PcOk(s, pc) && Advance(s, t, pc).Some? && c in s.nodes && x in s.nodes
    ensures Shared(Advance(s, t, pc).value.0)
    ensures Cuts(s, Advance(s, t, pc).value.0, c, x) <==> SnipCuts(s, pc, c, x)
  {
    AdvanceKeeps(s, t, pc);
    if Snips(s, pc) {
      SnipCutsIff(s, t, pc, c, x);
    } else if Ahead(s, c, x) {
      if Publishes(s, t, pc) { PublishKeepsAhead(s, t, pc, c, x); } else { OtherKeepsAhead(s, t, pc, c, x); }
    }
  }

  lemma ThreadsKeepAhead(s: State, s2: State, c: Id, x: Id)
    requires Shared(s) && s2 == s.(threads := s2.threads)
    ensures Shared(s2) && (Ahead(s2, c, x) <==> Ahead(s, c, x))
  {
    SharedOnly(s, s2);
    if Reaches(s, c, 0) {
      forall m ensures SameTo(s, s2, m) { }
      ChainSame(s, s2, c);
    }
  }

  /** In every reachable state exactly one kind of step takes a node out of the way of a scan: a snip, from a node on the
      way there, past a node behind which the other stands, though it did not when the link was read. */
  lemma CutsIff(states: seq<State>, tids: seq<Tid>, acts: seq<Action>, i: nat, c: Id, x: Id)
    requires Run(states, tids, acts) && i < |acts| && c in states[i].nodes && x in states[i].nodes
    ensures Shared(states[i]) && Shared(states[i + 1])
    ensures Cuts(states[i], states[i + 1], c, x) <==>
      acts[i].Proceed? && SnipCuts(states[i], PcOf(states[i], tids[i]), c, x)
  {
    RunKeeps(states, tids, acts, i);
    RunKeeps(states, tids, acts, i + 1);
    var s, t, s2 := states[i], tids[i], states[i + 1];
    assert StepAt(states, tids, acts, i);
    if acts[i].Proceed? {
      assert PcOk(s, PcOf(s, t));
      AdvanceCutsIff(s, t, PcOf(s, t), c, x);
      ThreadsKeepAhead(Advance(s, t, PcOf(s, t)).value.0, s2, c, x);
    } else {
      ThreadsKeepAhead(s, s2, c, x);
    }
  }

  /** If the node is queued, the one unlinked has been claimed, and its link has moved since it was read. */
  lemma CutsBehindClaimed(states: seq<State>, tids: seq<Tid>, acts: seq<Action>, i: nat, c: Id, x: Id)
    requires Run(states, tids, acts) && i < |acts| && Alive(states[i], x)
    ensures Shared(states[i])
    ensures var s, pc := states[i], PcOf(states[i], tids[i]);
      SnipCuts(s, pc, c, x) ==>
        pc.curr in s.deleted && (pc.curr, 0) in s.next && s.next[(pc.curr, 0)].to != pc.succ
  {
    RunKeeps(states, tids, acts, i);
    var s, pc := states[i], PcOf(states[i], tids[i]);
    if SnipCuts(s, pc, c, x) {
      assert PcOk(s, pc);
      SnippedNotTail(s, pc);
      ChainSplit(s, c, pc.c.pred, x);
      ChainStep(s, pc.c.pred);
      ChainStep(s, pc.curr);
    }
  }

  // -- A whole scan --

  // Thread t starts a scan in step i, and is scanning up to state k.
  ghost predicate ScanFrom(states: seq<State>, tids: seq<Tid>, acts: seq<Action>, t: Tid, i: nat, k: nat) {
    && Run(states, tids, acts) && i < k < |states| && tids[i] == t && acts[i].CallRemoveMin?
    && forall j | i < j <= k :: Scanning(PcOf(states[j], t))
  }

  // No other thread cuts x off the scan by the snip of step j.
  ghost predicate NoCut(states: seq<State>, tids: seq<Tid>, acts: seq<Action>, t: Tid, j: nat, x: Id) {
    j < |states| && j < |tids| && j < |acts| && Shared(states[j]) && Scanning(PcOf(states[j], t)) && tids[j] != t ==>
      !(acts[j].Proceed? && SnipCuts(states[j], PcOf(states[j], tids[j]), PcOf(states[j], t).curr, x))
  }

  // x is queued from the start of the scan on, at first within reach of the head, and is never cut off.
  ghost predicate Steady(states: seq<State>, tids: seq<Tid>, acts: seq<Action>, t: Tid, i: nat, k: nat, x: Id) {
    && i < k < |states|
    && (forall j | i < j <= k :: Alive(states[j], x))
    && Shared(states[i + 1]) && OnChain(states[i + 1], x)
    && forall j: nat | i < j < k :: NoCut(states, tids, acts, t, j, x)
  }

  // The scan has x before it.
  ghost predicate InView(s: State, pc: Pc, x: Id)
    requires Shared(s) && Scanning(pc)
  {
    Ahead(s, pc.curr, x) && (pc.MinNext? ==> Earlier(s, pc.curr, x))
  }

  lemma ScanStarts(states: seq<State>, tids: seq<Tid>, acts: seq<Action>, t: Tid, i: nat, x: Id)
    requires ScanFrom(states, tids, acts, t, i, i + 1) && Steady(states, tids, acts, t, i, i + 1, x)
    ensures Shared(states[i + 1]) && InView(states[i + 1], PcOf(states[i + 1], t), x)
  {
    assert StepAt(states, tids, acts, i);
    assert NodeOk(states[i + 1], x);
  }

  // The scan's own step.
  lemma OwnStepOn(s: State, t: Tid, pc: Pc, x: Id)
    requires Shared(s) && PcOk(s, pc) && Scanning(pc) && Advance(s, t, pc).Some? && Alive(s, x) && InView(s, pc, x)
    ensures var (s2, pc2) := Advance(s, t, pc).value;
      && !pc2.Idle?
      && (Scanning(pc2) ==> s2 == s && InView(s, pc2, x))
      && (!Scanning(pc2) ==> pc.MinClaim? && s.nodes[pc.curr].prio <= s.nodes[x].prio)
  {
    ChainLater(s, pc.curr, x);
    if pc.MinNext? {
      assert pc.curr != TAIL;
      ChainStep(s, pc.curr);
    } else if pc.curr == TAIL {
      TailChain(s, x);
    }
  }

  lemma TailChain(s: State, x: Id)
    requires Shared(s) && Ahead(s, TAIL, x)
    ensures x == TAIL
  {
    assert NodeOk(s, TAIL);
  }

  lemma OthersStepOn(states: seq<State>, tids: seq<Tid>, acts: seq<Action>, t: Tid, j: nat, x: Id)
    requires Run(states, tids, acts) && j < |acts| && !(tids[j] == t && acts[j].Proceed?)
    requires Shared(states[j]) && Scanning(PcOf(states[j], t)) && InView(states[j], PcOf(states[j], t), x)
    requires NoCut(states, tids, acts, t, j, x) && x in states[j].nodes
    ensures Shared(states[j + 1]) && PcOf(states[j + 1], t) == PcOf(states[j], t)
    ensures InView(states[j + 1], PcOf(states[j + 1], t), x)
  {
    var s, s2, c := states[j], states[j + 1], PcOf(states[j], t).curr;
    RunKeeps(states, tids, acts, j);
    RunKeeps(states, tids, acts, j + 1);
    assert StepAt(states, tids, acts, j);
    OthersStay(s, tids[j], acts[j], s2, t);
    assert PcOk(s, PcOf(s, t));
    CutsIff(states, tids, acts, j, c, x);
    StepExtends(s, tids[j], acts[j], s2);
  }

  lemma {:induction false} ScanOn(states: seq<State>, tids: seq<Tid>, acts: seq<Action>, t: Tid, i: nat, k: nat, x: Id)
    requires ScanFrom(states, tids, acts, t, i, k) && Steady(states, tids, acts, t, i, k, x)
    ensures Shared(states[k]) && InView(states[k], PcOf(states[k], t), x)
    decreases k
  {
    if k == i + 1 {
      ScanStarts(states, tids, acts, t, i, x);
    } else {
      ScanOn(states, tids, acts, t, i, k - 1, x);
      if tids[k - 1] == t && acts[k - 1].Proceed? {
        OwnMove(states, tids, acts, t, k - 1, x);
      } else {
        assert NoCut(states, tids, acts, t, k - 1, x);
        OthersStepOn(states, tids, acts, t, k - 1, x);
      }
    }
  }

  lemma OwnMove(states: seq<State>, tids: seq<Tid>, acts: seq<Action>, t: Tid, j: nat, x: Id)
    requires Run(states, tids, acts) && j < |acts| && tids[j] == t && acts[j].Proceed?
    requires Shared(states[j]) && Scanning(PcOf(states[j], t)) && InView(states[j], PcOf(states[j], t), x)
    requires Alive(states[j], x)
    ensures Shared(states[j + 1]) && !PcOf(states[j + 1], t).Idle?
    ensures Scanning(PcOf(states[j + 1], t)) ==> InView(states[j + 1], PcOf(states[j + 1], t), x)
    ensures !Scanning(PcOf(states[j + 1], t)) ==>
      var n := PcOf(states[j], t).curr; n in states[j].nodes && states[j].nodes[n].prio <= states[j].nodes[x].prio
  {
    var s, s2 := states[j], states[j + 1];
    RunKeeps(states, tids, acts, j);
    RunKeeps(states, tids, acts, j + 1);
    assert StepAt(states, tids, acts, j);
    assert PcOk(s, PcOf(s, t));
    OwnStepOn(s, t, PcOf(s, t), x);
    var pc2 := PcOf(s2, t);
    if Scanning(pc2) { ThreadsKeepAhead(s, s2, pc2.curr, x); }
  }

  /** A removeMin claims a node of priority at most that of every node that is queued all through its scan, was within
      reach of the head when it began, and was not cut off the scan by another thread; and it does not find the queue empty
      if there is such a node. */
  lemma ClaimsSmallest(states: seq<State>, tids: seq<Tid>, acts: seq<Action>, t: Tid, i: nat, k: nat, x: Id)
    requires ScanFrom(states, tids, acts, t, i, k) && Steady(states, tids, acts, t, i, k, x)
    requires k < |acts| && tids[k] == t && acts[k].Proceed?
    ensures !PcOf(states[k + 1], t).Idle?
    ensures forall n | Claims(states, tids, acts, k, n) ::
      n in states[k].nodes && states[k].nodes[n].prio <= states[k].nodes[x].prio
  {
    ScanOn(states, tids, acts, t, i, k, x);
    OwnMove(states, tids, acts, t, k, x);
  }
}
