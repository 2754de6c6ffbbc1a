/** A higher level of the skip list can link two nodes of equal priority: an insert sees the old node at level 1, another
    thread marks that node at both levels, and the insert publishes its own node and links it above the old one. */
module SkipListTwins {
  import opened Wrappers
  import opened SkipListNodes
  import opened SkipListSteps
  import opened SkipListRuns
  import opened SkipListLoss

  // From the load of pred's link to the test of the node it leads to.
  lemma LookAt(r0: Trace, s: State, t: Tid, c: Cursor) returns (r: Trace)
    requires IsRun(r0) && NoScanCall(r0) && Last(r0) == At(s, t, AtPred(c))
    requires (c.pred, c.i) in s.next && (s.next[(c.pred, c.i)].to, c.i) in s.next
    ensures IsRun(r) && NoScanCall(r)
    ensures var to := s.next[(c.pred, c.i)].to; Last(r) == At(s, t, Looking(c, to, s.next[(to, c.i)]))
  {
    var to := s.next[(c.pred, c.i)].to;
    r := Move(r0, s, t, AtPred(c), AtCurr(c, to));
    r := Move(r, s, t, AtCurr(c, to), Looking(c, to, s.next[(to, c.i)]));
  }

  // No thread removes the minimum.
  predicate NoScanCall(r: Trace) { forall a | a in r.acts :: !a.CallRemoveMin? }

  lemma Extend(r: Trace, t: Tid, a: Action, s2: State) returns (r2: Trace)
    requires IsRun(r) && NoScanCall(r) && Step(Last(r), t, a, s2) && !a.CallRemoveMin?
    ensures IsRun(r2) && NoScanCall(r2) && Last(r2) == s2
  {
    r2 := Trace(r.states + [s2], r.tids + [t], r.acts + [a]);
    forall i: nat ensures StepAt(r2.states, r2.tids, r2.acts, i) { assert StepAt(r.states, r.tids, r.acts, i); }
  }

  lemma Move(r: Trace, s: State, t: Tid, pc: Pc, pc2: Pc) returns (r2: Trace)
    requires IsRun(r) && NoScanCall(r) && Last(r) == At(s, t, pc)
    requires Advance(Last(r), t, pc) == Some((Last(r), pc2))
    ensures IsRun(r2) && NoScanCall(r2) && Last(r2) == At(s, t, pc2)
  {
    assert At(At(s, t, pc), t, pc2).threads == s.threads[t := pc2];
    r2 := Extend(r, t, Proceed, At(s, t, pc2));
  }

  // A swing of one link by thread t, which goes from pc to pc2.
  lemma Swing(r: Trace, s: State, t: Tid, pc: Pc, pc2: Pc, n: Id, i: nat, link: Link) returns (r2: Trace)
    requires IsRun(r) && NoScanCall(r) && Last(r) == At(s, t, pc)
    requires Advance(Last(r), t, pc) == Some((Last(r).(next := s.next[(n, i) := link]), pc2))
    ensures IsRun(r2) && NoScanCall(r2) && Last(r2) == At(s.(next := s.next[(n, i) := link]), t, pc2)
  {
    var s2 := s.(next := s.next[(n, i) := link]);
    assert At(s, t, pc).threads[t := pc2] == s2.threads[t := pc2];
    r2 := Extend(r, t, Proceed, At(s2, t, pc2));
  }

  // Both levels of a search found their places: at level 1 the gap (HEAD, high), at level 0 the gap (HEAD, low).
  function Gaps(high: Id, low: Id): Path {
    Path(EMPTY.preds[1 := HEAD][0 := HEAD], EMPTY.succs[1 := high][0 := low])
  }

  function High(high: Id): Path { Path(EMPTY.preds[1 := HEAD], EMPTY.succs[1 := high]) }

  // The two levels of a list of height 1 behind the head.
  predicate Lists(s: State, high: Link, low: Link) {
    && s.height == 1 && s.deleted == {} && TAIL in s.nodes && s.nodes[TAIL].prio == INT_MAX
    && (HEAD, 1) in s.next && s.next[(HEAD, 1)] == high && (HEAD, 0) in s.next && s.next[(HEAD, 0)] == low
    && (TAIL, 1) in s.next && s.next[(TAIL, 1)] == Link(TAIL, false)
    && (TAIL, 0) in s.next && s.next[(TAIL, 0)] == Link(TAIL, false)
  }

  // A search of the upper level stops at its first node and goes down.
  lemma SearchHigh(r0: Trace, s: State, t: Tid, goal: Goal, high: Id, low: Id, link: Link) returns (r: Trace)
    requires IsRun(r0) && NoScanCall(r0) && Last(r0) == At(s, t, Begin(5, goal, EMPTY))
    requires Lists(s, Link(high, false), Link(low, false)) && high in s.nodes && s.nodes[high].prio >= 5
    requires (high, 1) in s.next && s.next[(high, 1)] == link && !link.marked
    ensures IsRun(r) && NoScanCall(r) && Last(r) == At(s, t, AtPred(Cursor(5, goal, 0, HEAD, High(high))))
  {
    var c := Cursor(5, goal, 1, HEAD, EMPTY);
    r := Move(r0, s, t, Begin(5, goal, EMPTY), AtPred(c));
    r := LookAt(r, s, t, c);
    r := Move(r, s, t, Looking(c, high, link), AtPred(Cursor(5, goal, 0, HEAD, High(high))));
  }

  // A search of the lower level stops at its first node.
  lemma SearchLow(r0: Trace, s: State, t: Tid, goal: Goal, high: Id, low: Id, link: Link) returns (r: Trace)
    requires IsRun(r0) && NoScanCall(r0) && Last(r0) == At(s, t, AtPred(Cursor(5, goal, 0, HEAD, High(high))))
    requires s.deleted == {} && (HEAD, 0) in s.next && s.next[(HEAD, 0)] == Link(low, false)
    requires low in s.nodes && s.nodes[low].prio >= 5 && (low, 0) in s.next && s.next[(low, 0)] == link && !link.marked
    ensures IsRun(r) && NoScanCall(r) && Last(r) == At(s, t, Found(5, goal, Gaps(high, low)))
  {
    var c := Cursor(5, goal, 0, HEAD, High(high));
    r := LookAt(r0, s, t, c);
    r := Move(r, s, t, Looking(c, low, link), Found(5, goal, Gaps(high, low)));
  }

  // The state with a new node of priority 5 and top level 1 on the lower level.
  function Grown(s: State, high: Id): State {
    var id := |s.nodes|;
    s.(nodes := s.nodes[id := Info(5, 1)],
       next := s.next[(id, 0) := Link(TAIL, false)][(id, 1) := Link(high, false)][(HEAD, 0) := Link(id, false)])
  }

  function TwoLinks(next: Links, id: Id, low: Id, high: Id): Links {
    next[(id, 0) := Link(low, false)][(id, 1) := Link(high, false)]
  }

  // What a says of (n, j), if node id was given links to low and high.
  predicate Gained(a: Links, next: Links, id: Id, low: Id, high: Id, n: Id, j: nat) {
    if n == id && j <= 1 then (n, j) in a && a[(n, j)] == Link(if j == 0 then low else high, false)
    else ((n, j) in a <==> (n, j) in next) && ((n, j) in a ==> a[(n, j)] == next[(n, j)])
  }

  lemma AllocAt(s: State, succs: map<nat, Id>, n: Id, j: nat)
    requires 0 in succs && 1 in succs && forall i: nat | 0 <= i <= 1 :: i in succs
    ensures Gained(Alloc(s, 5, 1, succs).next, s.next, |s.nodes|, succs[0], succs[1], n, j)
  {
  }

  lemma TwoLinksAt(next: Links, id: Id, low: Id, high: Id, n: Id, j: nat)
    ensures Gained(TwoLinks(next, id, low, high), next, id, low, high, n, j)
  {
  }

  lemma SameLinks(a: Links, b: Links, next: Links, id: Id, low: Id, high: Id)
    requires forall n, j :: Gained(a, next, id, low, high, n, j) && Gained(b, next, id, low, high, n, j)
    ensures a == b
  {
    forall k ensures (k in a <==> k in b) && (k in a ==> a[k] == b[k]) {
      assert k == (k.0, k.1) && Gained(a, next, id, low, high, k.0, k.1);
    }
  }

  lemma AllocTwo(s: State, succs: map<nat, Id>)
    requires 0 in succs && 1 in succs && forall i: nat | 0 <= i <= 1 :: i in succs
    ensures Alloc(s, 5, 1, succs).next == TwoLinks(s.next, |s.nodes|, succs[0], succs[1])
  {
    var a, b := Alloc(s, 5, 1, succs).next, TwoLinks(s.next, |s.nodes|, succs[0], succs[1]);
    forall n: Id, j: nat
      ensures Gained(a, s.next, |s.nodes|, succs[0], succs[1], n, j)
      ensures Gained(b, s.next, |s.nodes|, succs[0], succs[1], n, j)
    {
      AllocAt(s, succs, n, j);
      TwoLinksAt(s.next, |s.nodes|, succs[0], succs[1], n, j);
    }
    SameLinks(a, b, s.next, |s.nodes|, succs[0], succs[1]);
  }

  lemma PublishTwo(s: State, high: Id)
    requires |s.nodes| !in s.nodes && |s.nodes| != HEAD && (HEAD, 0) in s.next && s.next[(HEAD, 0)] == Link(TAIL, false)
    ensures Publish(s, 5, 1, Gaps(high, TAIL)) == Some((Grown(s, high), Linking(5, |s.nodes|, 1, Gaps(high, TAIL))))
  {
    AllocTwo(s, Gaps(high, TAIL).succs);
  }

  lemma PublishStep(s: State, t: Tid, high: Id)
    requires |s.nodes| !in s.nodes && |s.nodes| != HEAD && (HEAD, 0) in s.next && s.next[(HEAD, 0)] == Link(TAIL, false)
    requires TAIL in s.nodes && s.nodes[TAIL].prio == INT_MAX
    ensures Step(At(s, t, Found(5, ToInsert(1), Gaps(high, TAIL))), t, Proceed,
                 At(Grown(s, high), t, Linking(5, |s.nodes|, 1, Gaps(high, TAIL))))
  {
    var s1 := At(s, t, Found(5, ToInsert(1), Gaps(high, TAIL)));
    PublishTwo(s1, high);
    var linking := Linking(5, |s.nodes|, 1, Gaps(high, TAIL));
    assert Advance(s1, t, PcOf(s1, t)) == Some((Grown(s1, high), linking));
    assert s1.threads[t := linking] == s.threads[t := linking];
  }

  lemma LinkHigh(s: State, t: Tid, id: Id, high: Id)
    requires id in s.nodes && s.nodes[id] == Info(5, 1) && (HEAD, 1) in s.next && s.next[(HEAD, 1)] == Link(high, false)
    ensures var path := Gaps(high, TAIL);
      Advance(s, t, Linking(5, id, 1, path))
        == Some((s.(next := s.next[(HEAD, 1) := Link(id, false)]), Linking(5, id, 2, path)))
  {
  }

  // The new node is published at the bottom and linked at level 1.
  lemma Insertion2(r0: Trace, s: State, t: Tid, high: Id) returns (r: Trace)
    requires IsRun(r0) && NoScanCall(r0) && Last(r0) == At(s, t, Found(5, ToInsert(1), Gaps(high, TAIL)))
    requires |s.nodes| !in s.nodes && |s.nodes| != HEAD && (HEAD, 0) in s.next && s.next[(HEAD, 0)] == Link(TAIL, false)
    requires TAIL in s.nodes && s.nodes[TAIL].prio == INT_MAX
    requires (HEAD, 1) in s.next && s.next[(HEAD, 1)] == Link(high, false)
    ensures IsRun(r) && NoScanCall(r) && Last(r) == At(Twofold(s, high), t, Linking(5, |s.nodes|, 2, Gaps(high, TAIL)))
  {
    PublishStep(s, t, high);
    var s2, linking := Grown(s, high), Linking(5, |s.nodes|, 1, Gaps(high, TAIL));
    r := Extend(r0, t, Proceed, At(s2, t, linking));
    GrownLinks(s, high);
    LinkHigh(At(s2, t, linking), t, |s.nodes|, high);
    r := Swing(r, s2, t, linking, Linking(5, |s.nodes|, 2, Gaps(high, TAIL)), HEAD, 1, Link(|s.nodes|, false));
  }

  function Twofold(s: State, high: Id): State {
    var s2 := Grown(s, high);
    s2.(next := s2.next[(HEAD, 1) := Link(|s.nodes|, false)])
  }

  lemma GrownLinks(s: State, high: Id)
    requires |s.nodes| != HEAD && (HEAD, 1) in s.next
    ensures var s2 := Grown(s, high);
      && |s.nodes| in s2.nodes && s2.nodes[|s.nodes|] == Info(5, 1)
      && (HEAD, 1) in s2.next && s2.next[(HEAD, 1)] == s.next[(HEAD, 1)]
  {
  }

  lemma AlreadyAt(s: State, t: Tid, pc: Pc)
    requires t in s.threads && s.threads[t] == pc
    ensures At(s, t, pc) == s
  {
    assert s.threads[t := pc] == s.threads;
  }

  // A stands alone on both levels.
  predicate OneTall(s: State) {
    && Lists(s, Link(A, false), Link(A, false)) && A in s.nodes && s.nodes[A] == Info(5, 1)
    && |s.nodes| == B && B !in s.nodes
    && (A, 1) in s.next && s.next[(A, 1)] == Link(TAIL, false) && (A, 0) in s.next && s.next[(A, 0)] == Link(TAIL, false)
  }

  predicate EmptyTall(s: State) {
    Lists(s, Link(TAIL, false), Link(TAIL, false)) && |s.nodes| == A && A !in s.nodes && B !in s.nodes
  }

  lemma FreshIsEmptyTall()
    ensures EmptyTall(Fresh(1)) && Fresh(1).threads == map[]
  {
    FreshNodes(1);
    assert A !in Fresh(1).nodes.Keys && B !in Fresh(1).nodes.Keys;
    FreshLists();
  }

  lemma FreshLists()
    ensures Lists(Fresh(1), Link(TAIL, false), Link(TAIL, false))
  {
  }

  lemma TwofoldIsTall(s: State, pc: Pc)
    requires EmptyTall(s)
    ensures OneTall(At(Twofold(s, TAIL), 1, pc))
  {
    assert B != A;
  }

  // Thread 1 inserts A.
  lemma InsertTall(r0: Trace, s: State) returns (r: Trace)
    requires IsRun(r0) && NoScanCall(r0) && Last(r0) == s && EmptyTall(s) && s.threads == map[]
    ensures IsRun(r) && NoScanCall(r) && OneTall(Last(r)) && PcOf(Last(r), 1) == Idle && PcOf(Last(r), 2) == Idle
  {
    r := Extend(r0, 1, CallInsert(5, 1), At(s, 1, Begin(5, ToInsert(1), EMPTY)));
    r := SearchHigh(r, s, 1, ToInsert(1), TAIL, TAIL, Link(TAIL, false));
    r := SearchLow(r, s, 1, ToInsert(1), TAIL, TAIL, Link(TAIL, false));
    r := Insertion2(r, s, 1, TAIL);
    var s2 := Twofold(s, TAIL);
    TwofoldIsTall(s, Linking(5, A, 2, Gaps(TAIL, TAIL)));
    r := Move(r, s2, 1, Linking(5, A, 2, Gaps(TAIL, TAIL)), Idle);
    TwofoldIsTall(s, Idle);
  }

  // Thread 2 searches level 1 for the place of another node of priority 5, and pauses.
  lemma SeeA(r0: Trace, s: State) returns (r: Trace)
    requires IsRun(r0) && NoScanCall(r0) && Last(r0) == s && OneTall(s) && PcOf(s, 2) == Idle
    ensures IsRun(r) && NoScanCall(r) && Last(r) == At(s, 2, AtPred(Cursor(5, ToInsert(1), 0, HEAD, High(A))))
  {
    r := Extend(r0, 2, CallInsert(5, 1), At(s, 2, Begin(5, ToInsert(1), EMPTY)));
    r := SearchHigh(r, s, 2, ToInsert(1), A, A, Link(TAIL, false));
  }

  // Thread 1 removes priority 5 and finds A.
  lemma FindTall(r0: Trace, s: State) returns (r: Trace)
    requires IsRun(r0) && NoScanCall(r0) && Last(r0) == s && OneTall(s) && PcOf(s, 1) == Idle
    ensures IsRun(r) && NoScanCall(r) && Last(r) == At(s, 1, Marking(5, A, 1, Gaps(A, A)))
  {
    r := Extend(r0, 1, CallRemove(5), At(s, 1, Begin(5, ToRemove, EMPTY)));
    r := SearchHigh(r, s, 1, ToRemove, A, A, Link(TAIL, false));
    r := SearchLow(r, s, 1, ToRemove, A, A, Link(TAIL, false));
    FoundTall(At(s, 1, Found(5, ToRemove, Gaps(A, A))));
    r := Move(r, s, 1, Found(5, ToRemove, Gaps(A, A)), Marking(5, A, 1, Gaps(A, A)));
  }

  lemma FoundTall(s: State)
    requires A in s.nodes && s.nodes[A] == Info(5, 1)
    ensures Advance(s, 1, Found(5, ToRemove, Gaps(A, A))) == Some((s, Marking(5, A, 1, Gaps(A, A))))
  {
    assert Gaps(A, A).succs[0] == A;
  }

  // The state with both links of A marked.
  function BothMarked(s: State): State {
    s.(next := s.next[(A, 1) := Link(TAIL, true)][(A, 0) := Link(TAIL, true)])
  }

  // It marks A at both levels.
  lemma MarkTall(r0: Trace, s: State) returns (r: Trace)
    requires IsRun(r0) && NoScanCall(r0) && OneTall(s) && Last(r0) == At(s, 1, Marking(5, A, 1, Gaps(A, A)))
    ensures IsRun(r) && NoScanCall(r) && Last(r) == At(BothMarked(s), 1, Begin(5, ToFinish, Gaps(A, A)))
  {
    var path := Gaps(A, A);
    var s1 := s.(next := s.next[(A, 1) := Link(TAIL, true)]);
    r := Move(r0, s, 1, Marking(5, A, 1, path), MarkCas(5, A, 1, TAIL, path));
    r := Swing(r, s, 1, MarkCas(5, A, 1, TAIL, path), Marking(5, A, 1, path), A, 1, Link(TAIL, true));
    r := Move(r, s1, 1, Marking(5, A, 1, path), Marking(5, A, 0, path));
    r := Move(r, s1, 1, Marking(5, A, 0, path), MarkCas(5, A, 0, TAIL, path));
    r := Swing(r, s1, 1, MarkCas(5, A, 0, TAIL, path), Begin(5, ToFinish, path), A, 0, Link(TAIL, true));
  }

  // A is marked at both levels, but not unlinked yet.
  predicate MarkedTall(s: State) {
    && Lists(s, Link(A, false), Link(A, false)) && A in s.nodes && s.nodes[A] == Info(5, 1)
    && |s.nodes| == B && B !in s.nodes && (A, 0) in s.next && s.next[(A, 0)] == Link(TAIL, true)
  }

  // Thread 2 goes on at level 0, unlinks A there, and publishes and links B.
  lemma InsertAbove(r0: Trace, s: State) returns (r: Trace)
    requires IsRun(r0) && NoScanCall(r0) && MarkedTall(s)
    requires Last(r0) == At(s, 2, AtPred(Cursor(5, ToInsert(1), 0, HEAD, High(A))))
    ensures IsRun(r) && NoScanCall(r)
    ensures var s2 := s.(next := s.next[(HEAD, 0) := Link(TAIL, false)]);
      Last(r) == At(Twofold(s2, A), 2, Linking(5, B, 2, Gaps(A, TAIL)))
  {
    var c := Cursor(5, ToInsert(1), 0, HEAD, High(A));
    var s2 := s.(next := s.next[(HEAD, 0) := Link(TAIL, false)]);
    r := LookAt(r0, s, 2, c);
    r := Move(r, s, 2, Looking(c, A, Link(TAIL, true)), Snipping(c, A, TAIL));
    r := Swing(r, s, 2, Snipping(c, A, TAIL), AtPred(c), HEAD, 0, Link(TAIL, false));
    r := SearchLow(r, s2, 2, ToInsert(1), A, TAIL, Link(TAIL, false));
    r := Insertion2(r, s2, 2, A);
  }

  // At level 1 the head leads to B, and B to A, of equal priority.
  predicate Twins(s: State) {
    && A in s.nodes && B in s.nodes && s.nodes[A].prio == s.nodes[B].prio
    && (HEAD, 1) in s.next && s.next[(HEAD, 1)] == Link(B, false) && (B, 1) in s.next && s.next[(B, 1)] == Link(A, false)
  }

  lemma OnlyAMarked(s: State, pausing: Pc, pc: Pc)
    requires OneTall(s)
    ensures MarkedTall(At(BothMarked(At(s, 2, pausing)), 1, pc))
  {
    assert (HEAD, 1) != (A, 1) && (HEAD, 0) != (A, 0) && (TAIL, 1) != (A, 1) && (TAIL, 0) != (A, 0);
  }

  lemma TwofoldIsTwins(s: State, pc: Pc)
    requires MarkedTall(s)
    ensures Twins(At(Twofold(s.(next := s.next[(HEAD, 0) := Link(TAIL, false)]), A), 2, pc))
  {
    assert (HEAD, 1) != (B, 1) && (HEAD, 0) != (B, 1);
  }

  lemma MarkSeen(r0: Trace, s: State) returns (r: Trace)
    requires IsRun(r0) && NoScanCall(r0) && Last(r0) == s && OneTall(s) && PcOf(s, 1) == Idle && PcOf(s, 2) == Idle
    ensures IsRun(r) && NoScanCall(r)
    ensures Last(r) == At(BothMarked(At(s, 2, Pausing())), 1, Begin(5, ToFinish, Gaps(A, A)))
  {
    r := SeeA(r0, s);
    r := FindTall(r, At(s, 2, Pausing()));
    r := MarkTall(r, At(s, 2, Pausing()));
  }

  function Pausing(): Pc { AtPred(Cursor(5, ToInsert(1), 0, HEAD, High(A))) }

  lemma TwinsFrom(r0: Trace, s: State) returns (r: Trace)
    requires IsRun(r0) && NoScanCall(r0) && Last(r0) == s && OneTall(s) && PcOf(s, 1) == Idle && PcOf(s, 2) == Idle
    ensures IsRun(r) && NoScanCall(r) && Twins(Last(r))
  {
    r := MarkSeen(r0, s);
    var s2 := Last(r);
    OnlyAMarked(s, Pausing(), Begin(5, ToFinish, Gaps(A, A)));
    AlreadyAt(s2, 2, Pausing());
    r := InsertAbove(r, s2);
    TwofoldIsTwins(s2, Linking(5, B, 2, Gaps(A, TAIL)));
  }

  /** Some run, without any removeMin, links two nodes of equal priority at level 1, the newer before the older. */
  lemma EqualPrioritiesLinked() returns (r: Trace)
    ensures IsRun(r) && NoScanCall(r) && Twins(Last(r))
  {
    FreshIsEmptyTall();
    r := InsertTall(Trace([Fresh(1)], [], []), Fresh(1));
    r := TwinsFrom(r, Last(r));
  }
}
