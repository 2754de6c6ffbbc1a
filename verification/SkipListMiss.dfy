/** A run in which removeMin finds the queue empty although a node is queued, and within reach of the head, from before its
    scan begins until after it returns. */
module SkipListMiss {
  import opened Wrappers
  import opened SkipListNodes
  import opened SkipListSteps
  import opened SkipListRuns
  import opened SkipListLoss
  import Set = SkipListSet

  const C: Id := 4   // the node inserted by thread 4 with priority 9, behind A of priority 5 and B of priority 7

  lemma Same(s: State, t: Tid, pc: Pc)
    requires PcOf(s, t) == pc && pc != Idle
    ensures At(s, t, pc) == s
  {
    assert s.threads[t := pc] == s.threads;
  }

  // -- The first part: head -> A -> B -> tail, with threads paused --

  predicate TwoNodes(s: State) {
    && s.height == 0 && |s.nodes| == C && C !in s.nodes
    && A in s.nodes && s.nodes[A] == Info(5, 0) && B in s.nodes && s.nodes[B] == Info(7, 0)
    && TAIL in s.nodes && s.nodes[TAIL].prio == INT_MAX
    && (HEAD, 0) in s.next && s.next[(HEAD, 0)] == Link(A, false)
    && (A, 0) in s.next && s.next[(A, 0)] == Link(B, false)
    && (B, 0) in s.next && s.next[(B, 0)] == Link(TAIL, false)
    && (TAIL, 0) in s.next && s.next[(TAIL, 0)] == Link(TAIL, false)
  }

  // Thread 2 inserts B.
  lemma InsertB(r0: Trace, s: State) returns (r: Trace)
    requires IsRun(r0) && NoRemove(r0) && Last(r0) == s && OneNode(s) && s.threads == map[1 := Idle]
    ensures IsRun(r) && NoRemove(r) && TwoNodes(Last(r)) && Last(r).deleted == {} && Last(r).claims == []
    ensures Last(r).threads == map[1 := Idle, 2 := Idle]
  {
    RunKeeps(r0.states, r0.tids, r0.acts, |r0.acts|);
    assert NodeOk(s, C);
    r := SearchB(r0, s);
    r := Insertion(r, s, 2, 7, A);
    BBehindA(s);
  }

  lemma BBehindA(s: State)
    requires OneNode(s) && C !in s.nodes
    ensures TwoNodes(At(Inserted(s, 7, A), 2, Idle))
  {
  }

  // From the load of A's link to the load of B's.
  function PastA(prio: int): Cursor { Cursor(prio, ToInsert(0), 0, A, EMPTY) }

  // A thread that looks for the place of a larger priority steps over A.
  lemma StepOverA(r0: Trace, s: State, t: Tid, prio: int) returns (r: Trace)
    requires IsRun(r0) && NoRemove(r0) && Last(r0) == s && TwoNodes(s) && s.deleted == {} && PcOf(s, t) == Idle
    requires 7 < prio < INT_MAX
    ensures IsRun(r) && NoRemove(r) && Last(r) == At(s, t, AtCurr(PastA(prio), B))
  {
    var c := Cursor(prio, ToInsert(0), 0, HEAD, EMPTY);
    r := Then(r0, t, CallInsert(prio, 0), At(s, t, Begin(prio, ToInsert(0), EMPTY)));
    r := Descend(r, s, t, prio, ToInsert(0));
    r := Hop(r, s, t, Looking(c, A, Link(B, false)), AtCurr(PastA(prio), B));
  }

  // Thread 4 goes on and finds the place of C, behind B.
  lemma FindPlace(r0: Trace, s: State) returns (r: Trace)
    requires IsRun(r0) && NoRemove(r0) && TwoNodes(s) && s.deleted == {} && Last(r0) == At(s, 4, AtCurr(PastA(9), B))
    ensures IsRun(r) && NoRemove(r) && Last(r) == At(s, 4, Found(9, ToInsert(0), Between(B, TAIL)))
  {
    var c, c2 := PastA(9), Cursor(9, ToInsert(0), 0, B, EMPTY);
    r := Hop(r0, s, 4, AtCurr(c, B), Looking(c, B, Link(TAIL, false)));
    r := Hop(r, s, 4, Looking(c, B, Link(TAIL, false)), AtCurr(c2, TAIL));
    r := Hop(r, s, 4, AtCurr(c2, TAIL), Looking(c2, TAIL, Link(TAIL, false)));
    r := Hop(r, s, 4, Looking(c2, TAIL, Link(TAIL, false)), Found(9, ToInsert(0), Between(B, TAIL)));
  }

  // The claim of a node.
  function ClaimedBy(s: State, n: Id, t: Tid): State { s.(deleted := s.deleted + {n}, claims := s.claims + [(n, t)]) }

  lemma ClaimNow(r0: Trace, s: State, t: Tid, n: Id) returns (r: Trace)
    requires IsRun(r0) && NoRemove(r0) && Last(r0) == At(s, t, MinClaim(n)) && n in s.nodes && n !in s.deleted
    ensures IsRun(r) && NoRemove(r) && Last(r) == At(ClaimedBy(s, n, t), t, Begin(s.nodes[n].prio, ToRemove, EMPTY))
  {
    var pc := Begin(s.nodes[n].prio, ToRemove, EMPTY);
    assert At(s, t, MinClaim(n)).threads[t := pc] == s.threads[t := pc];
    r := Then(r0, t, Proceed, At(ClaimedBy(s, n, t), t, pc));
  }

  // Thread 1 claims A.
  lemma ClaimA(r0: Trace, s: State) returns (r: Trace)
    requires IsRun(r0) && NoRemove(r0) && Last(r0) == s && TwoNodes(s) && s.deleted == {} && PcOf(s, 1) == Idle
    ensures IsRun(r) && NoRemove(r) && Last(r) == At(ClaimedBy(s, A, 1), 1, Begin(5, ToRemove, EMPTY))
  {
    r := Then(r0, 1, CallRemoveMin, At(s, 1, MinNext(HEAD)));
    r := Hop(r, s, 1, MinNext(HEAD), MinTest(A));
    r := Hop(r, s, 1, MinTest(A), MinClaim(A));
    r := ClaimNow(r, s, 1, A);
  }

  // Thread 2 scans past A.
  lemma PassClaimed(r0: Trace, s: State) returns (r: Trace)
    requires IsRun(r0) && NoRemove(r0) && Last(r0) == s && TwoNodes(s) && s.deleted == {A} && PcOf(s, 2) == Idle
    ensures IsRun(r) && NoRemove(r) && Last(r) == At(s, 2, MinNext(A))
  {
    r := Then(r0, 2, CallRemoveMin, At(s, 2, MinNext(HEAD)));
    r := Hop(r, s, 2, MinNext(HEAD), MinTest(A));
    r := Hop(r, s, 2, MinTest(A), MinNext(A));
  }

  // It claims B.
  lemma ClaimB(r0: Trace, s: State) returns (r: Trace)
    requires IsRun(r0) && NoRemove(r0) && TwoNodes(s) && s.deleted == {A} && Last(r0) == At(s, 2, MinNext(A))
    ensures IsRun(r) && NoRemove(r) && Last(r) == At(ClaimedBy(s, B, 2), 2, Begin(7, ToRemove, EMPTY))
  {
    r := Hop(r0, s, 2, MinNext(A), MinTest(B));
    r := Hop(r, s, 2, MinTest(B), MinClaim(B));
    r := ClaimNow(r, s, 2, B);
  }

  // Thread 3 reads B's link, finds B claimed, and pauses before it unlinks B from A.
  lemma ReadB(r0: Trace, s: State) returns (r: Trace)
    requires IsRun(r0) && NoRemove(r0) && TwoNodes(s) && B in s.deleted && Last(r0) == At(s, 3, AtCurr(PastA(11), B))
    ensures IsRun(r) && NoRemove(r) && Last(r) == At(s, 3, Snipping(PastA(11), B, TAIL))
  {
    r := Hop(r0, s, 3, AtCurr(PastA(11), B), Looking(PastA(11), B, Link(TAIL, false)));
    r := Hop(r, s, 3, Looking(PastA(11), B, Link(TAIL, false)), Snipping(PastA(11), B, TAIL));
  }

  // The threads are paused as told.
  predicate Paused(s: State) {
    && PcOf(s, 1) == Begin(5, ToRemove, EMPTY) && PcOf(s, 3) == Snipping(PastA(11), B, TAIL)
    && PcOf(s, 4) == Found(9, ToInsert(0), Between(B, TAIL)) && PcOf(s, 5) == Idle
  }

  // Threads 3 and 4 look for their places.
  lemma Look34(r0: Trace, s: State) returns (r: Trace)
    requires IsRun(r0) && NoRemove(r0) && Last(r0) == s && TwoNodes(s) && s.deleted == {}
    requires s.threads == map[1 := Idle, 2 := Idle]
    ensures IsRun(r) && NoRemove(r)
    ensures Last(r) == At(At(s, 3, AtCurr(PastA(11), B)), 4, Found(9, ToInsert(0), Between(B, TAIL)))
  {
    r := StepOverA(r0, s, 3, 11);
    r := StepOverA(r, At(s, 3, AtCurr(PastA(11), B)), 4, 9);
    r := FindPlace(r, At(s, 3, AtCurr(PastA(11), B)));
  }

  // Threads 1 and 2 claim A and B.
  lemma Claim12(r0: Trace, s: State) returns (r: Trace)
    requires IsRun(r0) && NoRemove(r0) && Last(r0) == s && TwoNodes(s) && s.deleted == {} && s.claims == []
    requires PcOf(s, 1) == Idle && PcOf(s, 2) == Idle
    ensures IsRun(r) && NoRemove(r) && TwoNodes(Last(r)) && Last(r).deleted == {A, B} && Last(r).claims == [(A, 1), (B, 2)]
    ensures PcOf(Last(r), 1) == Begin(5, ToRemove, EMPTY) && forall t | t > 2 :: PcOf(Last(r), t) == PcOf(s, t)
  {
    r := ClaimA(r0, s);
    var s1 := At(ClaimedBy(s, A, 1), 1, Begin(5, ToRemove, EMPTY));
    assert s1.deleted == {A} && s1.claims == [(A, 1)] && TwoNodes(s1) && PcOf(s1, 2) == Idle;
    r := PassClaimed(r, s1);
    r := ClaimB(r, s1);
    BothClaimed(s1);
  }

  lemma BothClaimed(s: State)
    requires TwoNodes(s) && s.deleted == {A} && s.claims == [(A, 1)] && PcOf(s, 1) == Begin(5, ToRemove, EMPTY)
    ensures var s2 := At(ClaimedBy(s, B, 2), 2, Begin(7, ToRemove, EMPTY));
      && TwoNodes(s2) && s2.deleted == {A, B} && s2.claims == [(A, 1), (B, 2)]
      && PcOf(s2, 1) == Begin(5, ToRemove, EMPTY) && forall t | t > 2 :: PcOf(s2, t) == PcOf(s, t)
  {
  }

  // And thread 3 gets stuck.
  lemma Prepare(r0: Trace, s: State) returns (r: Trace)
    requires IsRun(r0) && NoRemove(r0) && Last(r0) == s && TwoNodes(s) && s.deleted == {} && s.claims == []
    requires s.threads == map[1 := Idle, 2 := Idle]
    ensures IsRun(r) && NoRemove(r) && TwoNodes(Last(r)) && Last(r).deleted == {A, B} && Paused(Last(r))
    ensures Last(r).claims == [(A, 1), (B, 2)]
  {
    var s1 := At(At(s, 3, AtCurr(PastA(11), B)), 4, Found(9, ToInsert(0), Between(B, TAIL)));
    r := Look34(r0, s);
    r := Claim12(r, s1);
    assert PcOf(s1, 3) == AtCurr(PastA(11), B) && PcOf(s1, 5) == Idle;
    assert PcOf(s1, 4) == Found(9, ToInsert(0), Between(B, TAIL));
    r := GetStuck(r, Last(r));
  }

  lemma GetStuck(r0: Trace, s: State) returns (r: Trace)
    requires IsRun(r0) && NoRemove(r0) && Last(r0) == s && TwoNodes(s) && s.deleted == {A, B}
    requires PcOf(s, 1) == Begin(5, ToRemove, EMPTY) && PcOf(s, 3) == AtCurr(PastA(11), B) && PcOf(s, 5) == Idle
    requires PcOf(s, 4) == Found(9, ToInsert(0), Between(B, TAIL))
    ensures IsRun(r) && NoRemove(r) && TwoNodes(Last(r)) && Last(r).deleted == {A, B} && Paused(Last(r))
    ensures Last(r).claims == s.claims
  {
    Same(s, 3, AtCurr(PastA(11), B));
    r := ReadB(r0, s);
  }

  // -- The second part: C is queued, and a scan misses it --

  // C is queued behind B; the head leads to h, and A leads to a.
  predicate ThreeNodes(s: State, h: Id, a: Id) {
    && s.height == 0 && A in s.nodes && s.nodes[A] == Info(5, 0) && B in s.nodes && s.nodes[B] == Info(7, 0)
    && C in s.nodes && s.nodes[C] == Info(9, 0) && TAIL in s.nodes && s.nodes[TAIL].prio == INT_MAX && s.deleted == {A, B}
    && s.claims == [(A, 1), (B, 2)]
    && (HEAD, 0) in s.next && s.next[(HEAD, 0)] == Link(h, false)
    && (A, 0) in s.next && s.next[(A, 0)] == Link(a, false)
    && (B, 0) in s.next && s.next[(B, 0)] == Link(C, false)
    && (C, 0) in s.next && s.next[(C, 0)] == Link(TAIL, false)
    && (TAIL, 0) in s.next && s.next[(TAIL, 0)] == Link(TAIL, false)
  }

  // C is queued, and the head reaches it.
  predicate Here(s: State) { ThreeNodes(s, A, B) || ThreeNodes(s, B, B) || ThreeNodes(s, B, TAIL) }

  lemma HereMeans(s: State)
    requires Inv(s) && Here(s)
    ensures Set.Alive(s, C) && Set.OnChain(s, C)
  {
    Set.HeadReaches(s);
    Set.ChainStep(s, HEAD);
    if s.next[(HEAD, 0)].to == A { Set.ChainStep(s, A); }
    Set.ChainStep(s, B);
    Set.ChainStep(s, C);
  }

  // C is queued in every state from m on.
  predicate HereFrom(r: Trace, m: nat) { forall j | m <= j < |r.states| :: Here(r.states[j]) }

  // One more step, in which C stays.
  lemma Stay(r: Trace, m: nat, t: Tid, a: Action, s2: State) returns (r2: Trace)
    requires IsRun(r) && NoRemove(r) && m <= |r.states| && HereFrom(r, m)
    requires Step(Last(r), t, a, s2) && !a.CallRemove? && Here(s2)
    ensures IsRun(r2) && NoRemove(r2) && Last(r2) == s2 && HereFrom(r2, m) && Grows(r, r2) && |r2.acts| == |r.acts| + 1
    ensures r2.tids[|r.acts|] == t && r2.acts[|r.acts|] == a
  {
    r2 := Trace(r.states + [s2], r.tids + [t], r.acts + [a]);
    forall i: nat ensures StepAt(r2.states, r2.tids, r2.acts, i) { assert StepAt(r.states, r.tids, r.acts, i); }
  }

  predicate Grows(r: Trace, r2: Trace) {
    && |r.tids| == |r.acts| && |r2.tids| == |r2.acts| && |r.acts| <= |r2.acts|
    && r2.tids[..|r.tids|] == r.tids && r2.acts[..|r.acts|] == r.acts
  }

  // Thread t goes from pc to pc2 and changes nothing else.
  lemma StayHop(r: Trace, m: nat, s: State, t: Tid, pc: Pc, pc2: Pc) returns (r2: Trace)
    requires IsRun(r) && NoRemove(r) && m <= |r.states| && HereFrom(r, m) && Here(s) && Last(r) == At(s, t, pc)
    requires Advance(Last(r), t, pc) == Some((Last(r), pc2))
    ensures IsRun(r2) && NoRemove(r2) && Last(r2) == At(s, t, pc2) && HereFrom(r2, m) && Grows(r, r2)
  {
    assert At(At(s, t, pc), t, pc2).threads == s.threads[t := pc2];
    r2 := Stay(r, m, t, Proceed, At(s, t, pc2));
  }

  // Thread t unlinks B or A, which leaves s with other links.
  lemma StaySnip(r: Trace, m: nat, s: State, t: Tid, c: Cursor, curr: Id, succ: Id) returns (r2: Trace)
    requires IsRun(r) && NoRemove(r) && m <= |r.states| && HereFrom(r, m) && Last(r) == At(s, t, Snipping(c, curr, succ))
    requires (c.pred, c.i) in s.next && s.next[(c.pred, c.i)] == Link(curr, false)
    requires Here(s.(next := s.next[(c.pred, c.i) := Link(succ, false)]))
    ensures IsRun(r2) && NoRemove(r2) && HereFrom(r2, m) && Grows(r, r2)
    ensures Last(r2) == At(s.(next := s.next[(c.pred, c.i) := Link(succ, false)]), t, AtPred(c))
  {
    var s2 := s.(next := s.next[(c.pred, c.i) := Link(succ, false)]);
    assert At(s, t, Snipping(c, curr, succ)).threads[t := AtPred(c)] == s2.threads[t := AtPred(c)];
    r2 := Stay(r, m, t, Proceed, At(s2, t, AtPred(c)));
  }

  // Thread 5 begins its scan.
  lemma Enter(r0: Trace, m: nat, s: State) returns (r: Trace)
    requires IsRun(r0) && NoRemove(r0) && m <= |r0.acts| && HereFrom(r0, m) && Last(r0) == s && ThreeNodes(s, A, B)
    requires PcOf(s, 5) == Idle
    ensures IsRun(r) && NoRemove(r) && HereFrom(r, m) && Grows(r0, r) && Last(r) == At(s, 5, MinNext(HEAD))
    ensures |r.acts| > |r0.acts| && r.tids[|r0.acts|] == 5 && r.acts[|r0.acts|] == CallRemoveMin
  {
    r := Stay(r0, m, 5, CallRemoveMin, At(s, 5, MinNext(HEAD)));
  }

  // It stands on A.
  lemma StandOnA(r0: Trace, m: nat, s: State) returns (r: Trace)
    requires IsRun(r0) && NoRemove(r0) && m <= |r0.acts| && HereFrom(r0, m) && ThreeNodes(s, A, B)
    requires Last(r0) == At(s, 5, MinNext(HEAD))
    ensures IsRun(r) && NoRemove(r) && HereFrom(r, m) && Grows(r0, r) && Last(r) == At(s, 5, MinNext(A))
  {
    r := StayHop(r0, m, s, 5, MinNext(HEAD), MinTest(A));
    r := StayHop(r, m, s, 5, MinTest(A), MinNext(A));
  }

  function FromHead(): Cursor { Cursor(5, ToRemove, 0, HEAD, EMPTY) }

  // Thread 1 finds A claimed.
  lemma FindClaimed(r0: Trace, m: nat, s: State) returns (r: Trace)
    requires IsRun(r0) && NoRemove(r0) && m <= |r0.acts| && HereFrom(r0, m) && ThreeNodes(s, A, B)
    requires Last(r0) == At(s, 1, Begin(5, ToRemove, EMPTY))
    ensures IsRun(r) && NoRemove(r) && HereFrom(r, m) && Grows(r0, r) && Last(r) == At(s, 1, Snipping(FromHead(), A, B))
  {
    var c := FromHead();
    r := StayHop(r0, m, s, 1, Begin(5, ToRemove, EMPTY), AtPred(c));
    r := StayHop(r, m, s, 1, AtPred(c), AtCurr(c, A));
    r := StayHop(r, m, s, 1, AtCurr(c, A), Looking(c, A, Link(B, false)));
    r := StayHop(r, m, s, 1, Looking(c, A, Link(B, false)), Snipping(c, A, B));
  }

  // It unlinks A from the head.
  lemma UnlinkA(r0: Trace, m: nat, s: State) returns (r: Trace, s2: State)
    requires IsRun(r0) && NoRemove(r0) && m <= |r0.acts| && HereFrom(r0, m) && ThreeNodes(s, A, B)
    requires Last(r0) == At(s, 1, Begin(5, ToRemove, EMPTY))
    ensures IsRun(r) && NoRemove(r) && HereFrom(r, m) && Grows(r0, r) && ThreeNodes(s2, B, B)
    ensures Last(r) == s2 && PcOf(s2, 3) == PcOf(s, 3) && PcOf(s2, 5) == PcOf(s, 5)
  {
    var r1 := FindClaimed(r0, m, s);
    var s1 := s.(next := s.next[(HEAD, 0) := Link(B, false)]);
    assert ThreeNodes(s1, B, B);
    r := StaySnip(r1, m, s, 1, FromHead(), A, B);
    s2 := At(s1, 1, AtPred(FromHead()));
    GrowsOn(r0, r1, r);
  }

  // Thread 3 unlinks B from A, by the link it read before C came.
  lemma UnlinkB(r0: Trace, m: nat, s: State) returns (r: Trace)
    requires IsRun(r0) && NoRemove(r0) && m <= |r0.acts| && HereFrom(r0, m) && ThreeNodes(s, B, B)
    requires Last(r0) == At(s, 3, Snipping(PastA(11), B, TAIL))
    ensures IsRun(r) && NoRemove(r) && HereFrom(r, m) && Grows(r0, r) && ThreeNodes(Last(r), B, TAIL)
    ensures PcOf(Last(r), 5) == PcOf(s, 5)
  {
    assert ThreeNodes(s.(next := s.next[(A, 0) := Link(TAIL, false)]), B, TAIL);
    r := StaySnip(r0, m, s, 3, PastA(11), B, TAIL);
  }

  // Thread 5 steps from A to the tail, and returns.
  lemma FindNone(r0: Trace, m: nat, s: State) returns (r: Trace)
    requires IsRun(r0) && NoRemove(r0) && m <= |r0.acts| && HereFrom(r0, m) && ThreeNodes(s, B, TAIL)
    requires Last(r0) == At(s, 5, MinNext(A))
    ensures IsRun(r) && NoRemove(r) && HereFrom(r, m) && Grows(r0, r) && PcOf(Last(r), 5) == Idle
  {
    r := StayHop(r0, m, s, 5, MinNext(A), MinTest(TAIL));
    r := StayHop(r, m, s, 5, MinTest(TAIL), Idle);
  }

  lemma CBehindB(s: State)
    requires TwoNodes(s) && s.deleted == {A, B} && s.claims == [(A, 1), (B, 2)] && Paused(s)
    ensures var s2 := At(Inserted(s, 9, B), 4, Idle);
      ThreeNodes(s2, A, B) && PcOf(s2, 1) == PcOf(s, 1) && PcOf(s2, 3) == PcOf(s, 3) && PcOf(s2, 5) == Idle
  {
  }

  lemma GrowsOn(r: Trace, r2: Trace, r3: Trace)
    requires Grows(r, r2) && Grows(r2, r3)
    ensures Grows(r, r3)
  {
    assert r3.tids[..|r.tids|] == r3.tids[..|r2.tids|][..|r.tids|];
    assert r3.acts[..|r.acts|] == r3.acts[..|r2.acts|][..|r.acts|];
  }

  // From the moment that the scan of thread 5 stands on A.
  lemma MissFrom(r0: Trace, m: nat, s: State) returns (r: Trace)
    requires IsRun(r0) && NoRemove(r0) && m <= |r0.acts| && HereFrom(r0, m) && Last(r0) == s && ThreeNodes(s, A, B)
    requires PcOf(s, 1) == Begin(5, ToRemove, EMPTY) && PcOf(s, 3) == Snipping(PastA(11), B, TAIL)
    requires PcOf(s, 5) == MinNext(A)
    ensures IsRun(r) && HereFrom(r, m) && Grows(r0, r) && PcOf(Last(r), 5) == Idle
  {
    Same(s, 1, Begin(5, ToRemove, EMPTY));
    var r1, s1 := UnlinkA(r0, m, s);
    Same(s1, 3, Snipping(PastA(11), B, TAIL));
    var r2 := UnlinkB(r1, m, s1);
    Same(Last(r2), 5, MinNext(A));
    r := FindNone(r2, m, Last(r2));
    GrowsOn(r0, r1, r2);
    GrowsOn(r0, r2, r);
  }

  // From the publication of C on.
  lemma QueueC(r0: Trace, s: State) returns (r: Trace, m: nat)
    requires IsRun(r0) && NoRemove(r0) && Last(r0) == s && TwoNodes(s) && s.deleted == {A, B} && Paused(s)
    requires s.claims == [(A, 1), (B, 2)]
    ensures IsRun(r) && HereFrom(r, m) && PcOf(Last(r), 5) == Idle
    ensures m < |r.acts| && m < |r.tids| && r.tids[m] == 5 && r.acts[m] == CallRemoveMin
  {
    Same(s, 4, Found(9, ToInsert(0), Between(B, TAIL)));
    var r1 := Insertion(r0, s, 4, 9, B);
    CBehindB(s);
    m := |r1.acts|;
    var s1 := At(Inserted(s, 9, B), 4, Idle);
    var r2 := Enter(r1, m, s1);
    var r3 := StandOnA(r2, m, s1);
    r := MissFrom(r3, m, Last(r3));
    GrowsOn(r2, r3, r);
    GrownStep(r2, r, m);
  }

  lemma GrownStep(r: Trace, r2: Trace, m: nat)
    requires Grows(r, r2) && m < |r.acts|
    ensures m < |r2.acts| && m < |r2.tids| && r2.tids[m] == r.tids[m] && r2.acts[m] == r.acts[m]
  {
    assert r2.tids[m] == r2.tids[..|r.tids|][m] && r2.acts[m] == r2.acts[..|r.acts|][m];
  }

  lemma Build() returns (r: Trace, m: nat)
    ensures IsRun(r) && HereFrom(r, m) && PcOf(Last(r), 5) == Idle
    ensures m < |r.acts| && m < |r.tids| && r.tids[m] == 5 && r.acts[m] == CallRemoveMin
  {
    var s := Fresh(0);
    FreshIsEmpty();
    r := InsertA(Trace([s], [], []), s);
    InsertedIsOneNode(s);
    r := InsertB(r, Last(r));
    r := Prepare(r, Last(r));
    r, m := QueueC(r, Last(r));
  }

  /** Some run has a removeMin, called by thread 5 in step m, that returns without having claimed anything, although node C
      is queued and within reach of the head in every state from before that call to after its return. */
  lemma MissesQueued() returns (r: Trace, m: nat)
    ensures IsRun(r) && m < |r.acts| && m < |r.tids| && r.tids[m] == 5 && r.acts[m] == CallRemoveMin
    ensures PcOf(Last(r), 5) == Idle && forall j | 0 <= j < |Last(r).claims| :: Last(r).claims[j].1 != 5
    ensures forall j | m <= j < |r.states| ::
      Shared(r.states[j]) && Set.Alive(r.states[j], C) && Set.OnChain(r.states[j], C)
  {
    r, m := Build();
    assert Here(Last(r));
    forall j | m <= j < |r.states|
      ensures Shared(r.states[j]) && Set.Alive(r.states[j], C) && Set.OnChain(r.states[j], C)
    {
      RunKeeps(r.states, r.tids, r.acts, j);
      HereMeans(r.states[j]);
    }
  }
}
