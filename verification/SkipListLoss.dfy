/** The skip list is not a linearizable set. In one run an insert returns, no thread removes its priority, and yet the
    inserted node cannot be reached: the search of another thread unlinks a node whose deleted flag is set although its
    link is not marked, so an insertion behind that node goes unnoticed. In another run removeMin claims a node, and the
    remove it ends with takes out a node of the same priority that was inserted meanwhile and that nobody claimed. */
module SkipListLoss {
  import opened Wrappers
  import opened SkipListNodes
  import opened SkipListSteps
  import opened SkipListRuns

  datatype Trace = Trace(states: seq<State>, tids: seq<Tid>, acts: seq<Action>)

  ghost predicate IsRun(r: Trace) { |r.states| > 0 && Run(r.states, r.tids, r.acts) }

  function Last(r: Trace): State
    requires |r.states| > 0
  {
    r.states[|r.states| - 1]
  }

  // No call in the trace asks for the removal of a priority by name.
  predicate NoRemove(r: Trace) { forall a | a in r.acts :: !a.CallRemove? }

  lemma Then(r: Trace, t: Tid, a: Action, s2: State) returns (r2: Trace)
    requires IsRun(r) && NoRemove(r) && Step(Last(r), t, a, s2) && !a.CallRemove?
    ensures IsRun(r2) && NoRemove(r2) && Last(r2) == s2
  {
    r2 := Trace(r.states + [s2], r.tids + [t], r.acts + [a]);
    forall i: nat ensures StepAt(r2.states, r2.tids, r2.acts, i) { assert StepAt(r.states, r.tids, r.acts, i); }
  }

  function At(s: State, t: Tid, pc: Pc): State { s.(threads := s.threads[t := pc]) }

  // Thread t goes from pc to pc2 and changes nothing else.
  lemma Hop(r: Trace, s: State, t: Tid, pc: Pc, pc2: Pc) returns (r2: Trace)
    requires IsRun(r) && NoRemove(r) && Last(r) == At(s, t, pc)
    requires Advance(Last(r), t, pc) == Some((Last(r), pc2))
    ensures IsRun(r2) && NoRemove(r2) && Last(r2) == At(s, t, pc2)
  {
    assert At(At(s, t, pc), t, pc2).threads == s.threads[t := pc2];
    r2 := Then(r, t, Proceed, At(s, t, pc2));
  }

  const EMPTY := Path(map[], map[])
  const A: Id := 2   // the node inserted by thread 1 with priority 5
  const B: Id := 3   // the node inserted by thread 2 with priority 7

  // A search of a list of height 0 reaches the test of the first node behind the head.
  lemma Descend(r: Trace, s: State, t: Tid, prio: int, goal: Goal) returns (r2: Trace)
    requires IsRun(r) && NoRemove(r) && Last(r) == At(s, t, Begin(prio, goal, EMPTY))
    requires s.height == 0 && (HEAD, 0) in s.next && (s.next[(HEAD, 0)].to, 0) in s.next
    ensures IsRun(r2) && NoRemove(r2)
    ensures var first := s.next[(HEAD, 0)].to;
      Last(r2) == At(s, t, Looking(Cursor(prio, goal, 0, HEAD, EMPTY), first, s.next[(first, 0)]))
  {
    var c := Cursor(prio, goal, 0, HEAD, EMPTY);
    var first := s.next[(HEAD, 0)].to;
    r2 := Hop(r, s, t, Begin(prio, goal, EMPTY), AtPred(c));
    r2 := Hop(r2, s, t, AtPred(c), AtCurr(c, first));
    r2 := Hop(r2, s, t, AtCurr(c, first), Looking(c, first, s.next[(first, 0)]));
  }

  // The path that a search of a list of height 0 finds.
  function Between(pred: Id, succ: Id): Path { Path(EMPTY.preds[0 := pred], EMPTY.succs[0 := succ]) }

  predicate AtEnd(s: State, prio: int, pred: Id) {
    && TAIL in s.nodes && s.nodes[TAIL].prio != prio && |s.nodes| !in s.nodes && pred != |s.nodes|
    && (pred, 0) in s.next && s.next[(pred, 0)] == Link(TAIL, false)
  }

  lemma PublishAtEnd(s: State, prio: int, pred: Id)
    requires AtEnd(s, prio, pred)
    ensures Publish(s, prio, 0, Between(pred, TAIL))
         == Some((Inserted(s, prio, pred), Linking(prio, |s.nodes|, 1, Between(pred, TAIL))))
  {
    assert Alloc(s, prio, 0, Between(pred, TAIL).succs).next == s.next[(|s.nodes|, 0) := Link(TAIL, false)];
  }

  lemma PublishStep(s: State, t: Tid, prio: int, pred: Id)
    requires AtEnd(s, prio, pred)
    ensures Step(At(s, t, Found(prio, ToInsert(0), Between(pred, TAIL))), t, Proceed,
                 At(Inserted(s, prio, pred), t, Linking(prio, |s.nodes|, 1, Between(pred, TAIL))))
  {
    var s1 := At(s, t, Found(prio, ToInsert(0), Between(pred, TAIL)));
    PublishAtEnd(s1, prio, pred);
    var linking := Linking(prio, |s.nodes|, 1, Between(pred, TAIL));
    assert Advance(s1, t, PcOf(s1, t)) == Some((Inserted(s1, prio, pred), linking));
    assert s1.threads[t := linking] == s.threads[t := linking];
  }

  // A node of level 0 is published and the insert returns.
  lemma Insertion(r: Trace, s: State, t: Tid, prio: int, pred: Id) returns (r2: Trace)
    requires IsRun(r) && NoRemove(r) && Last(r) == At(s, t, Found(prio, ToInsert(0), Between(pred, TAIL)))
    requires AtEnd(s, prio, pred)
    ensures IsRun(r2) && NoRemove(r2) && Last(r2) == At(Inserted(s, prio, pred), t, Idle)
  {
    var s2 := Inserted(s, prio, pred);
    var linking := Linking(prio, |s.nodes|, 1, Between(pred, TAIL));
    PublishStep(s, t, prio, pred);
    r2 := Then(r, t, Proceed, At(s2, t, linking));
    r2 := Hop(r2, s2, t, linking, Idle);
  }

  function Inserted(s: State, prio: int, pred: Id): State {
    var id := |s.nodes|;
    s.(nodes := s.nodes[id := Info(prio, 0)],
       next := s.next[(id, 0) := Link(TAIL, false)][(pred, 0) := Link(id, false)])
  }

  lemma FreshNodes(height: nat)
    ensures Fresh(height).nodes.Keys == {HEAD, TAIL} && |Fresh(height).nodes| == 2
  {
    assert |Fresh(height).nodes| == |Fresh(height).nodes.Keys|;
  }

  lemma FreshIsEmpty()
    ensures var s := Fresh(0); |s.nodes| == 2 && (HEAD, 0) in s.next && (TAIL, 0) in s.next && s.threads == map[]
  {
    FreshNodes(0);
  }

  // Thread 1 inserts A: the list is head -> A -> tail.
  lemma InsertA(r0: Trace, s: State) returns (r: Trace)
    requires IsRun(r0) && NoRemove(r0) && Last(r0) == s && s.height == 0 && s.threads == map[] && AtEnd(s, 5, HEAD)
    requires (TAIL, 0) in s.next && s.next[(TAIL, 0)] == Link(TAIL, false)
    requires s.nodes[TAIL].prio == INT_MAX && s.deleted == {}
    ensures IsRun(r) && NoRemove(r) && Last(r) == At(Inserted(s, 5, HEAD), 1, Idle)
  {
    var c, path := Cursor(5, ToInsert(0), 0, HEAD, EMPTY), Between(HEAD, TAIL);
    r := Then(r0, 1, CallInsert(5, 0), At(s, 1, Begin(5, ToInsert(0), EMPTY)));
    r := Descend(r, s, 1, 5, ToInsert(0));
    r := Hop(r, s, 1, Looking(c, TAIL, Link(TAIL, false)), Found(5, ToInsert(0), path));
    r := Insertion(r, s, 1, 5, HEAD);
  }

  // The list head -> A -> tail, with A alive.
  predicate OneNode(s: State) {
    && s.height == 0 && |s.nodes| == B && B !in s.nodes && s.deleted == {} && s.claims == []
    && A in s.nodes && s.nodes[A] == Info(5, 0) && TAIL in s.nodes && s.nodes[TAIL].prio == INT_MAX
    && (HEAD, 0) in s.next && s.next[(HEAD, 0)] == Link(A, false)
    && (A, 0) in s.next && s.next[(A, 0)] == Link(TAIL, false)
    && (TAIL, 0) in s.next && s.next[(TAIL, 0)] == Link(TAIL, false)
  }

  // Thread 2 looks for the place of B and steps over A.
  lemma PassA(r0: Trace, s: State) returns (r: Trace)
    requires IsRun(r0) && NoRemove(r0) && Last(r0) == s && OneNode(s) && PcOf(s, 2) == Idle
    ensures IsRun(r) && NoRemove(r) && Last(r) == At(s, 2, AtCurr(Cursor(7, ToInsert(0), 0, A, EMPTY), TAIL))
  {
    var c := Cursor(7, ToInsert(0), 0, HEAD, EMPTY);
    r := Then(r0, 2, CallInsert(7, 0), At(s, 2, Begin(7, ToInsert(0), EMPTY)));
    r := Descend(r, s, 2, 7, ToInsert(0));
    r := Hop(r, s, 2, Looking(c, A, Link(TAIL, false)), AtCurr(c.(pred := A), TAIL));
  }

  // It finds the place, behind A, and pauses before it publishes B.
  lemma SearchB(r0: Trace, s: State) returns (r: Trace)
    requires IsRun(r0) && NoRemove(r0) && Last(r0) == s && OneNode(s) && PcOf(s, 2) == Idle
    ensures IsRun(r) && NoRemove(r) && Last(r) == At(s, 2, Found(7, ToInsert(0), Between(A, TAIL)))
  {
    var c := Cursor(7, ToInsert(0), 0, A, EMPTY);
    r := PassA(r0, s);
    r := Hop(r, s, 2, AtCurr(c, TAIL), Looking(c, TAIL, Link(TAIL, false)));
    r := Hop(r, s, 2, Looking(c, TAIL, Link(TAIL, false)), Found(7, ToInsert(0), Between(A, TAIL)));
  }

  // The state after thread 1 claimed A.
  function Claimed(s: State): State { s.(deleted := {A}, claims := [(A, 1)]) }

  // Thread 1 looks for the minimum.
  lemma FindA(r0: Trace, s: State) returns (r: Trace)
    requires IsRun(r0) && NoRemove(r0) && Last(r0) == s && OneNode(s) && PcOf(s, 1) == Idle
    ensures IsRun(r) && NoRemove(r) && Last(r) == At(s, 1, MinClaim(A))
  {
    r := Then(r0, 1, CallRemoveMin, At(s, 1, MinNext(HEAD)));
    r := Hop(r, s, 1, MinNext(HEAD), MinTest(A));
    r := Hop(r, s, 1, MinTest(A), MinClaim(A));
  }

  lemma ClaimStep(s: State)
    requires OneNode(s)
    ensures Step(At(s, 1, MinClaim(A)), 1, Proceed, At(Claimed(s), 1, Begin(5, ToRemove, EMPTY)))
  {
    assert At(s, 1, MinClaim(A)).threads[1 := Begin(5, ToRemove, EMPTY)] == s.threads[1 := Begin(5, ToRemove, EMPTY)];
  }

  // It claims A, finds A deleted and pauses before it unlinks A.
  lemma ClaimA(r0: Trace, s: State) returns (r: Trace)
    requires IsRun(r0) && NoRemove(r0) && Last(r0) == At(s, 1, MinClaim(A)) && OneNode(s)
    ensures IsRun(r) && NoRemove(r)
    ensures Last(r) == At(Claimed(s), 1, Snipping(Cursor(5, ToRemove, 0, HEAD, EMPTY), A, TAIL))
  {
    var c, s2 := Cursor(5, ToRemove, 0, HEAD, EMPTY), Claimed(s);
    ClaimStep(s);
    r := Then(r0, 1, Proceed, At(s2, 1, Begin(5, ToRemove, EMPTY)));
    r := Descend(r, s2, 1, 5, ToRemove);
    r := Hop(r, s2, 1, Looking(c, A, Link(TAIL, false)), Snipping(c, A, TAIL));
  }

  // Thread 2 publishes B behind A and returns; then thread 1 unlinks A, and B with it.
  lemma LoseB(r0: Trace, s: State) returns (r: Trace)
    requires IsRun(r0) && NoRemove(r0) && OneNode(s) && 1 in s.threads
    requires s.threads[1] == Snipping(Cursor(5, ToRemove, 0, HEAD, EMPTY), A, TAIL)
    requires Last(r0) == At(Claimed(s), 2, Found(7, ToInsert(0), Between(A, TAIL)))
    ensures IsRun(r) && NoRemove(r) && Lost(Last(r))
  {
    r := Insertion(r0, Claimed(s), 2, 7, A);
    var s2 := Last(r);
    var s3 := s2.(next := s2.next[(HEAD, 0) := Link(TAIL, false)]);
    r := Then(r, 1, Proceed, At(s3, 1, AtPred(Cursor(5, ToRemove, 0, HEAD, EMPTY))));
  }

  // B has been inserted, it is not deleted and its link is unmarked, but the head's link leads to the tail.
  predicate Lost(s: State) {
    && B in s.nodes && s.nodes[B].prio == 7 && B !in s.deleted && PcOf(s, 2) == Idle && s.claims == [(A, 1)]
    && (B, 0) in s.next && !s.next[(B, 0)].marked
    && s.height == 0 && (HEAD, 0) in s.next && s.next[(HEAD, 0)] == Link(TAIL, false)
  }

  lemma Commute(s: State, pc1: Pc, pc2: Pc)
    ensures At(Claimed(At(s, 2, pc2)), 1, pc1) == At(Claimed(At(s, 1, pc1)), 2, pc2)
  {
    assert s.threads[2 := pc2][1 := pc1] == s.threads[1 := pc1][2 := pc2];
  }

  lemma FromOneNode(r0: Trace, s: State) returns (r: Trace)
    requires IsRun(r0) && NoRemove(r0) && Last(r0) == s && OneNode(s) && PcOf(s, 1) == Idle && PcOf(s, 2) == Idle
    ensures IsRun(r) && NoRemove(r) && Lost(Last(r))
  {
    r := SearchB(r0, s);
    r := FindA(r, Last(r));
    r := ClaimA(r, At(s, 2, Found(7, ToInsert(0), Between(A, TAIL))));
    var snipping := Snipping(Cursor(5, ToRemove, 0, HEAD, EMPTY), A, TAIL);
    Commute(s, snipping, Found(7, ToInsert(0), Between(A, TAIL)));
    r := LoseB(r, At(s, 1, snipping));
  }

  lemma RunExists(s: State) returns (r: Trace)
    requires s == Fresh(0)
    ensures IsRun(r) && NoRemove(r) && Lost(Last(r))
  {
    FreshIsEmpty();
    r := InsertA(Trace([s], [], []), s);
    InsertedIsOneNode(s);
    r := FromOneNode(r, Last(r));
  }

  lemma InsertedIsOneNode(s: State)
    requires s == Fresh(0)
    ensures OneNode(At(Inserted(s, 5, HEAD), 1, Idle))
  {
    FreshIsEmpty();
  }

  /** Insertions can be lost: some run without any call of remove ends in a state where the insert of B has returned,
      removeMin has claimed only A, B is neither deleted nor marked, and yet B is not on the bottom chain. */
  lemma InsertCanBeLost() returns (r: Trace)
    ensures IsRun(r) && NoRemove(r) && Lost(Last(r))
    ensures Shared(Last(r)) && Reaches(Last(r), HEAD, 0) && B !in Chain(Last(r), 0, HEAD)
  {
    r := RunExists(Fresh(0));
    RunKeeps(r.states, r.tids, r.acts, |r.acts|);
    var s := Last(r);
    assert LinkOk(s, HEAD, 0) && NodeOk(s, HEAD);
    assert Chain(s, 0, HEAD) == [HEAD] + Chain(s, 0, TAIL);
  }

  // -- The second run --

  // A is claimed by thread 1, which is about to remove its priority; the head is linked to first.
  predicate AClaimed(s: State, first: Id) {
    && s.height == 0 && A in s.nodes && B !in s.nodes && |s.nodes| == B && TAIL in s.nodes && s.nodes[TAIL].prio == INT_MAX
    && s.deleted == {A} && s.claims == [(A, 1)] && 1 in s.threads && s.threads[1] == Begin(5, ToRemove, EMPTY)
    && (HEAD, 0) in s.next && s.next[(HEAD, 0)] == Link(first, false)
    && (A, 0) in s.next && s.next[(A, 0)] == Link(TAIL, false)
    && (TAIL, 0) in s.next && s.next[(TAIL, 0)] == Link(TAIL, false)
  }

  lemma ClaimOnly(r0: Trace, s: State) returns (r: Trace)
    requires IsRun(r0) && NoRemove(r0) && Last(r0) == s && OneNode(s) && PcOf(s, 1) == Idle && PcOf(s, 2) == Idle
    ensures IsRun(r) && NoRemove(r) && AClaimed(Last(r), A) && PcOf(Last(r), 2) == Idle
  {
    r := FindA(r0, s);
    ClaimStep(s);
    r := Then(r, 1, Proceed, At(Claimed(s), 1, Begin(5, ToRemove, EMPTY)));
  }

  // The state after thread 2 unlinked A.
  function Unlinked(s: State): State { s.(next := s.next[(HEAD, 0) := Link(TAIL, false)]) }

  lemma UnlinkStep(s: State)
    requires AClaimed(s, A)
    ensures var c := Cursor(5, ToInsert(0), 0, HEAD, EMPTY);
      Step(At(s, 2, Snipping(c, A, TAIL)), 2, Proceed, At(Unlinked(s), 2, AtPred(c)))
  {
    var c := Cursor(5, ToInsert(0), 0, HEAD, EMPTY);
    assert At(s, 2, Snipping(c, A, TAIL)).threads[2 := AtPred(c)] == s.threads[2 := AtPred(c)];
  }

  // Thread 2 inserts priority 5 again: it finds A claimed and unlinks it.
  lemma UnlinkA(r0: Trace, s: State) returns (r: Trace)
    requires IsRun(r0) && NoRemove(r0) && Last(r0) == s && AClaimed(s, A) && PcOf(s, 2) == Idle
    ensures IsRun(r) && NoRemove(r) && Last(r) == At(Unlinked(s), 2, AtPred(Cursor(5, ToInsert(0), 0, HEAD, EMPTY)))
  {
    var c := Cursor(5, ToInsert(0), 0, HEAD, EMPTY);
    r := Then(r0, 2, CallInsert(5, 0), At(s, 2, Begin(5, ToInsert(0), EMPTY)));
    r := Descend(r, s, 2, 5, ToInsert(0));
    r := Hop(r, s, 2, Looking(c, A, Link(TAIL, false)), Snipping(c, A, TAIL));
    UnlinkStep(s);
    r := Then(r, 2, Proceed, At(Unlinked(s), 2, AtPred(c)));
  }

  // It publishes node B and returns.
  lemma InsertAgain(r0: Trace, s: State) returns (r: Trace)
    requires IsRun(r0) && NoRemove(r0) && AClaimed(s, TAIL)
    requires Last(r0) == At(s, 2, AtPred(Cursor(5, ToInsert(0), 0, HEAD, EMPTY)))
    ensures IsRun(r) && NoRemove(r) && Last(r) == At(Inserted(s, 5, HEAD), 2, Idle)
  {
    var c := Cursor(5, ToInsert(0), 0, HEAD, EMPTY);
    r := Hop(r0, s, 2, AtPred(c), AtCurr(c, TAIL));
    r := Hop(r, s, 2, AtCurr(c, TAIL), Looking(c, TAIL, Link(TAIL, false)));
    r := Hop(r, s, 2, Looking(c, TAIL, Link(TAIL, false)), Found(5, ToInsert(0), Between(HEAD, TAIL)));
    r := Insertion(r, s, 2, 5, HEAD);
  }

  // Node B of priority 5 is the only node on the list, and thread 1 is about to remove that priority.
  predicate BInserted(s: State) {
    && s.height == 0 && B in s.nodes && s.nodes[B] == Info(5, 0) && s.deleted == {A} && s.claims == [(A, 1)]
    && 1 in s.threads && s.threads[1] == Begin(5, ToRemove, EMPTY) && PcOf(s, 2) == Idle
    && (HEAD, 0) in s.next && s.next[(HEAD, 0)] == Link(B, false)
    && (B, 0) in s.next && s.next[(B, 0)] == Link(TAIL, false)
  }

  // Thread 1 finds B.
  lemma FindB(r0: Trace, s: State) returns (r: Trace)
    requires IsRun(r0) && NoRemove(r0) && Last(r0) == s && BInserted(s)
    ensures IsRun(r) && NoRemove(r) && Last(r) == At(s, 1, Found(5, ToRemove, Between(HEAD, B)))
  {
    var c := Cursor(5, ToRemove, 0, HEAD, EMPTY);
    assert s.threads[1 := Begin(5, ToRemove, EMPTY)] == s.threads;
    r := Descend(r0, s, 1, 5, ToRemove);
    r := Hop(r, s, 1, Looking(c, B, Link(TAIL, false)), Found(5, ToRemove, Between(HEAD, B)));
  }

  lemma FoundB(s: State)
    requires B in s.nodes && s.nodes[B] == Info(5, 0) && (B, 0) in s.next && s.next[(B, 0)] == Link(TAIL, false)
    ensures var path := Between(HEAD, B);
      && Advance(s, 1, Found(5, ToRemove, path)) == Some((s, Marking(5, B, 0, path)))
      && Advance(s, 1, Marking(5, B, 0, path)) == Some((s, MarkCas(5, B, 0, TAIL, path)))
  {
  }

  // It is about to mark B.
  lemma StealB(r0: Trace, s: State) returns (r: Trace)
    requires IsRun(r0) && NoRemove(r0) && Last(r0) == s && BInserted(s)
    ensures IsRun(r) && NoRemove(r) && Last(r) == At(s, 1, MarkCas(5, B, 0, TAIL, Between(HEAD, B)))
  {
    var path := Between(HEAD, B);
    r := FindB(r0, s);
    FoundB(At(s, 1, Found(5, ToRemove, path)));
    FoundB(At(s, 1, Marking(5, B, 0, path)));
    r := Hop(r, s, 1, Found(5, ToRemove, path), Marking(5, B, 0, path));
    r := Hop(r, s, 1, Marking(5, B, 0, path), MarkCas(5, B, 0, TAIL, path));
  }

  // B has been inserted and taken out, though the only claim was for A.
  predicate Stolen(s: State) {
    && B in s.nodes && s.nodes[B].prio == 5 && B !in s.deleted && PcOf(s, 2) == Idle && s.claims == [(A, 1)]
    && (B, 0) in s.next && s.next[(B, 0)].marked
  }

  lemma MarkB(r0: Trace, s: State) returns (r: Trace)
    requires IsRun(r0) && NoRemove(r0) && BInserted(s) && Last(r0) == At(s, 1, MarkCas(5, B, 0, TAIL, Between(HEAD, B)))
    ensures IsRun(r) && NoRemove(r) && Stolen(Last(r))
  {
    var s1 := Last(r0);
    var s2 := s1.(next := s1.next[(B, 0) := Link(TAIL, true)]);
    r := Then(r0, 1, Proceed, At(s2, 1, Begin(5, ToFinish, Between(HEAD, B))));
  }

  lemma StolenFromOneNode(r0: Trace, s: State) returns (r: Trace)
    requires IsRun(r0) && NoRemove(r0) && Last(r0) == s && OneNode(s) && PcOf(s, 1) == Idle && PcOf(s, 2) == Idle
    ensures IsRun(r) && NoRemove(r) && Stolen(Last(r))
  {
    r := ClaimOnly(r0, s);
    var s1 := Last(r);
    r := UnlinkA(r, s1);
    r := InsertAgain(r, Unlinked(s1));
    var s2 := Last(r);
    r := StealB(r, s2);
    r := MarkB(r, s2);
  }

  /** An insert can be undone by a removeMin that claimed another node: some run without any call of remove ends in a
      state where the insert of B has returned, only A was ever claimed, and B is removed. */
  lemma InsertCanBeStolen() returns (r: Trace)
    ensures IsRun(r) && NoRemove(r) && Stolen(Last(r))
  {
    var s := Fresh(0);
    FreshIsEmpty();
    r := InsertA(Trace([s], [], []), s);
    InsertedIsOneNode(s);
    r := StolenFromOneNode(r, Last(r));
  }
}
