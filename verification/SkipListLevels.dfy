/** Links between nodes of equal priority. The bottom level has none; a higher level gets one exactly when an insert
    publishes a node whose search had found, on a higher level, an old node of the same priority. */
module SkipListLevels {
  import opened Wrappers
  import opened SkipListNodes
  import opened SkipListSteps
  import opened SkipListRuns
  import opened SkipListSet

  // Node n's link at level i leads to a node of equal priority.
  predicate Twin(s: State, n: Id, i: nat) {
    && n != TAIL && n in s.nodes && (n, i) in s.next && s.next[(n, i)].to in s.nodes
    && s.nodes[s.next[(n, i)].to].prio == s.nodes[n].prio
  }

  ghost predicate NewTwin(s: State, s2: State) { exists n, i :: Twin(s2, n, i) && !Twin(s, n, i) }

  // An insert publishes a node although a search of a higher level ended at a node of its priority.
  predicate PublishesTwin(s: State, t: Tid, pc: Pc) {
    Publishes(s, t, pc) && exists i :: 1 <= i <= pc.goal.top && Ahead(s, pc, i)
  }

  // At level i the search ended at a node of the priority it looked for.
  predicate Ahead(s: State, pc: Pc, i: nat)
    requires pc.Found?
  {
    i in pc.path.succs && pc.path.succs[i] in s.nodes && s.nodes[pc.path.succs[i]].prio == pc.prio
  }

  // A swing makes a twin only if the new link leads to a node of equal priority and the old one did not.
  lemma SwingTwin(s: State, s2: State, p: Id, i: nat, expected: Id, desired: Link)
    requires Swung(s, p, i, expected, desired) == Some(s2) && p in s.nodes && expected in s.nodes && desired.to in s.nodes
    requires s.nodes[p].prio == s.nodes[desired.to].prio ==> s.nodes[p].prio == s.nodes[expected].prio
    ensures !NewTwin(s, s2)
  {
    forall n: Id, j: nat | Twin(s2, n, j) ensures Twin(s, n, j) {
      assert (n, j) != (p, i) ==> s2.next[(n, j)] == s.next[(n, j)];
    }
  }

  lemma SameNoTwin(s: State, s2: State)
    requires s2.nodes == s.nodes && s2.next == s.next
    ensures !NewTwin(s, s2)
  {
    forall n, j | Twin(s2, n, j) ensures Twin(s, n, j) { }
  }

  lemma AllocLink(s: State, prio: int, top: nat, succs: map<nat, Id>, n: Id, j: nat)
    requires forall i | 0 <= i <= top :: i in succs
    ensures var a := Alloc(s, prio, top, succs).next;
      if n == |s.nodes| && j <= top then (n, j) in a && a[(n, j)] == Link(succs[j], false)
      else ((n, j) in a <==> (n, j) in s.next) && ((n, j) in a ==> a[(n, j)] == s.next[(n, j)])
  {
  }

  // A new node has equal priority with those of its successors that have it; other twins stay as they are.
  lemma AllocTwin(s: State, prio: int, top: nat, succs: map<nat, Id>, n: Id, j: nat)
    requires Shared(s) && forall i | 0 <= i <= top :: i in succs && succs[i] in s.nodes
    ensures var s1 := Alloc(s, prio, top, succs);
      if n == |s.nodes| then Twin(s1, n, j) <==> j <= top && s.nodes[succs[j]].prio == prio
      else Twin(s1, n, j) <==> Twin(s, n, j)
  {
    AllocLink(s, prio, top, succs, n, j);
    assert NodeOk(s, |s.nodes|) && LinkOk(s, n, j);
    assert |s.nodes| != TAIL by { assert NodeOk(s, TAIL); }
  }

  // A published node has equal priority with its successor at exactly those levels where the search ended at one.
  lemma PublishTwinIff(s: State, t: Tid, pc: Pc)
    requires Shared(s) && PcOk(s, pc) && Publishes(s, t, pc)
    ensures NewTwin(s, Advance(s, t, pc).value.0) <==> exists i :: 1 <= i <= pc.goal.top && Ahead(s, pc, i)
  {
    PublishParts(s, t, pc);
    var id, path := |s.nodes|, pc.path;
    var s1, s2 := Alloc(s, pc.prio, pc.goal.top, path.succs), Advance(s, t, pc).value.0;
    assert NodeOk(s, id) && Reaches(s, path.preds[0], 0);
    AllocTwins(s, pc);
    SwingTwin(s1, s2, path.preds[0], 0, path.succs[0], Link(id, false));
    SwingKeepsTwin(s1, s2, path.preds[0], 0, path.succs[0], Link(id, false));
    TwinThrough(s, s1, s2, path.preds[0], id);
  }

  // The twins of the state in which the new node is allocated, but not published yet.
  lemma AllocTwins(s: State, pc: Pc)
    requires Shared(s) && PcOk(s, pc) && pc.Found? && pc.goal.ToInsert?
    requires forall i | 0 <= i <= pc.goal.top :: i in pc.path.succs
    requires 0 in pc.path.succs && pc.path.succs[0] in s.nodes && s.nodes[pc.path.succs[0]].prio != pc.prio
    ensures var s1, id := Alloc(s, pc.prio, pc.goal.top, pc.path.succs), |s.nodes|;
      && (forall n, j | n != id :: Twin(s1, n, j) <==> Twin(s, n, j))
      && ((exists j: nat :: Twin(s1, id, j)) <==> exists i :: 1 <= i <= pc.goal.top && Ahead(s, pc, i))
  {
    var s1, id := Alloc(s, pc.prio, pc.goal.top, pc.path.succs), |s.nodes|;
    forall n, j | n != id ensures Twin(s1, n, j) <==> Twin(s, n, j) {
      AllocTwin(s, pc.prio, pc.goal.top, pc.path.succs, n, j);
    }
    forall j: nat ensures Twin(s1, id, j) <==> 1 <= j <= pc.goal.top && Ahead(s, pc, j) {
      AllocTwin(s, pc.prio, pc.goal.top, pc.path.succs, id, j);
    }
  }

  // s1 has a new node id, and s2 swings the link of p, which makes no twin.
  lemma TwinThrough(s: State, s1: State, s2: State, p: Id, id: Id)
    requires (forall n, j | n != id :: Twin(s1, n, j) <==> Twin(s, n, j)) && id !in s.nodes && id != p
    requires !NewTwin(s1, s2) && forall n, j | n != p && Twin(s1, n, j) :: Twin(s2, n, j)
    ensures NewTwin(s, s2) <==> exists j: nat :: Twin(s1, id, j)
  {
    if j: nat :| Twin(s1, id, j) { assert Twin(s2, id, j) && !Twin(s, id, j); }
    if n: Id, j: nat :| Twin(s2, n, j) && !Twin(s, n, j) { assert Twin(s1, n, j); }
  }

  lemma SwingKeepsTwin(s: State, s2: State, p: Id, i: nat, expected: Id, desired: Link)
    requires Swung(s, p, i, expected, desired) == Some(s2)
    ensures forall n, j | n != p && Twin(s, n, j) :: Twin(s2, n, j)
  {
  }

  // -- Other steps --

  lemma SnipNoTwin(s: State, t: Tid, pc: Pc)
    requires Shared(s) && PcOk(s, pc) && pc.Snipping? && Advance(s, t, pc).Some?
    ensures !NewTwin(s, Advance(s, t, pc).value.0)
  {
    var next := Swung(s, pc.c.pred, pc.c.i, pc.curr, Link(pc.succ, false));
    if next.Some? {
      SwingTwin(s, next.value, pc.c.pred, pc.c.i, pc.curr, Link(pc.succ, false));
    } else {
      SameNoTwin(s, s);
    }
  }

  lemma LinkNoTwin(s: State, t: Tid, pc: Pc)
    requires Shared(s) && PcOk(s, pc) && pc.Linking? && Advance(s, t, pc).Some?
    ensures !NewTwin(s, Advance(s, t, pc).value.0)
  {
    SameNoTwin(s, s);
    if pc.level <= s.nodes[pc.node].top {
      var p, q := pc.path.preds[pc.level], pc.path.succs[pc.level];
      var next := Swung(s, p, pc.level, q, Link(pc.node, false));
      if next.Some? { SwingTwin(s, next.value, p, pc.level, q, Link(pc.node, false)); }
    }
  }

  lemma MarkNoTwin(s: State, t: Tid, pc: Pc)
    requires Shared(s) && PcOk(s, pc) && pc.MarkCas? && Advance(s, t, pc).Some?
    ensures !NewTwin(s, Advance(s, t, pc).value.0)
  {
    SameNoTwin(s, s);
    assert LinkOk(s, pc.node, pc.level);
    var next := Swung(s, pc.node, pc.level, pc.succ, Link(pc.succ, true));
    if next.Some? { SwingTwin(s, next.value, pc.node, pc.level, pc.succ, Link(pc.succ, true)); }
  }

  lemma AdvanceTwinIff(s: State, t: Tid, pc: Pc)
    requires Shared(s) && PcOk(s, pc) && Advance(s, t, pc).Some?
    ensures NewTwin(s, Advance(s, t, pc).value.0) <==> PublishesTwin(s, t, pc)
  {
    if Publishes(s, t, pc) {
      PublishTwinIff(s, t, pc);
    } else if pc.Snipping? {
      SnipNoTwin(s, t, pc);
    } else if pc.Linking? {
      LinkNoTwin(s, t, pc);
    } else if pc.MarkCas? {
      MarkNoTwin(s, t, pc);
    } else {
      SameNoTwin(s, Advance(s, t, pc).value.0);
    }
  }

  /** In every reachable state a step links a node to one of equal priority, where the link did not lead to such a node
      before, if and only if it publishes a node whose search ended, at a level from 1 to the node's own, at a node of
      its priority. */
  lemma TwinIff(states: seq<State>, tids: seq<Tid>, acts: seq<Action>, i: nat)
    requires Run(states, tids, acts) && i < |acts|
    ensures NewTwin(states[i], states[i + 1]) <==>
      acts[i].Proceed? && PublishesTwin(states[i], tids[i], PcOf(states[i], tids[i]))
  {
    RunKeeps(states, tids, acts, i);
    var s, t, s2 := states[i], tids[i], states[i + 1];
    assert StepAt(states, tids, acts, i);
    if acts[i].Proceed? {
      assert PcOk(s, PcOf(s, t));
      AdvanceTwinIff(s, t, PcOf(s, t));
      ThreadsNoTwin(s, Advance(s, t, PcOf(s, t)).value.0, s2);
    } else {
      SameNoTwin(s, s2);
    }
  }

  lemma ThreadsNoTwin(s: State, s1: State, s2: State)
    requires s2.nodes == s1.nodes && s2.next == s1.next
    ensures NewTwin(s, s2) <==> NewTwin(s, s1)
  {
    forall n, j ensures Twin(s2, n, j) <==> Twin(s1, n, j) { }
  }

  /** The node that a twin link leads to is older, and the link is never on the bottom level. */
  lemma TwinsAreOlder(states: seq<State>, tids: seq<Tid>, acts: seq<Action>, m: nat, n: Id, i: nat)
    requires Run(states, tids, acts) && m < |states| && Twin(states[m], n, i)
    ensures i > 0 && states[m].next[(n, i)].to < n
  {
    RunKeeps(states, tids, acts, m);
    assert LinkOk(states[m], n, i);
  }
}
