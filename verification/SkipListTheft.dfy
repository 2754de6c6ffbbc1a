/** What a removeMin takes out. After it has claimed a node it calls remove with that node's priority, and the search of
    that call skips every claimed node: it never takes out the node it claimed. Exactly when it takes out another. */
module SkipListTheft {
  import opened Wrappers
  import opened SkipListNodes
  import opened SkipListSteps
  import opened SkipListRuns
  import opened SkipListSet

  // -- One step of the remove that follows a claim --

  predicate Removal(goal: Goal) { goal.ToRemove? || goal.ToFinish? }

  predicate Avoids(path: Path, m: Id) { forall i | i in path.succs :: path.succs[i] != m }

  // Within a remove of this priority.
  predicate RemovePc(pc: Pc, prio: int) {
    match pc
    case Idle => true
    case Begin(p, goal, _) => p == prio && Removal(goal)
    case AtPred(c) => c.prio == prio && Removal(c.goal)
    case AtCurr(c, _) => c.prio == prio && Removal(c.goal)
    case Looking(c, _, _) => c.prio == prio && Removal(c.goal)
    case Snipping(c, _, _) => c.prio == prio && Removal(c.goal)
    case Found(p, goal, _) => p == prio && Removal(goal)
    case Marking(p, _, _, _) => p == prio
    case MarkCas(p, _, _, _, _) => p == prio
    case _ => false
  }

  // The remove has not picked m.
  predicate Misses(pc: Pc, m: Id) {
    match pc
    case Begin(_, _, path) => Avoids(path, m)
    case AtPred(c) => Avoids(c.path, m)
    case AtCurr(c, _) => Avoids(c.path, m)
    case Looking(c, _, _) => Avoids(c.path, m)
    case Snipping(c, _, _) => Avoids(c.path, m)
    case Found(_, _, path) => Avoids(path, m)
    case Marking(_, node, _, path) => node != m && Avoids(path, m)
    case MarkCas(_, node, _, _, path) => node != m && Avoids(path, m)
    case _ => true
  }

  // The remove of a thread that claimed m, whose priority is prio, has not picked m, and will not.
  predicate Past(pc: Pc, m: Id, prio: int) { RemovePc(pc, prio) && Misses(pc, m) }

  lemma PastStep(s: State, t: Tid, pc: Pc, m: Id, prio: int)
    requires Past(pc, m, prio) && m in s.deleted && Advance(s, t, pc).Some?
    ensures Past(Advance(s, t, pc).value.1, m, prio) && !Marks(s, t, pc, m)
  {
  }

  // What the call is at: it searches, it marks the node it found, or it has marked it and cleans up.
  datatype Phase = Searching | Taking(node: Id) | Finishing | Elsewhere

  function GoalPhase(goal: Goal): Phase { if goal.ToRemove? then Searching else Finishing }

  function PhaseOf(pc: Pc): Phase {
    match pc
    case Begin(_, goal, _) => GoalPhase(goal)
    case AtPred(c) => GoalPhase(c.goal)
    case AtCurr(c, _) => GoalPhase(c.goal)
    case Looking(c, _, _) => GoalPhase(c.goal)
    case Snipping(c, _, _) => GoalPhase(c.goal)
    case Found(_, goal, _) => GoalPhase(goal)
    case Marking(_, node, _, _) => Taking(node)
    case MarkCas(_, node, _, _, _) => Taking(node)
    case _ => Elsewhere
  }

  // findNode has returned and answers that n has the priority.
  predicate Finds(s: State, pc: Pc, n: Id) {
    && pc.Found? && pc.goal.ToRemove? && 0 in pc.path.succs && pc.path.succs[0] == n
    && n in s.nodes && s.nodes[n].prio == pc.prio
  }

  // The phases follow each other: from searching to marking the node found, from there to cleaning up by winning the mark.
  lemma PhaseStep(s: State, t: Tid, pc: Pc, prio: int)
    requires RemovePc(pc, prio) && !pc.Idle? && Advance(s, t, pc).Some?
    ensures RemovePc(Advance(s, t, pc).value.1, prio)
    ensures var pc2 := Advance(s, t, pc).value.1;
      match PhaseOf(pc)
      case Searching =>
        && (forall n :: !Marks(s, t, pc, n)) && (forall n :: Finds(s, pc, n) ==> PhaseOf(pc2) == Taking(n))
        && (pc2.Idle? || PhaseOf(pc2) == Searching || (PhaseOf(pc2).Taking? && Finds(s, pc, PhaseOf(pc2).node)))
      case Taking(node) =>
        && (forall n :: (Marks(s, t, pc, n) ==> n == node) && !Finds(s, pc, n))
        && (if Marks(s, t, pc, node) then PhaseOf(pc2) == Finishing else pc2.Idle? || PhaseOf(pc2) == Taking(node))
      case Finishing =>
        && (forall n :: !Marks(s, t, pc, n) && !Finds(s, pc, n))
        && (pc2.Idle? || PhaseOf(pc2) == Finishing)
      case Elsewhere => false
  {
  }

  // -- A call of removeMin, from its claim on --

  // Thread t claimed m in step i, and up to state k it has not returned.
  ghost predicate Removing(states: seq<State>, tids: seq<Tid>, acts: seq<Action>, t: Tid, i: nat, m: Id, k: nat) {
    && Run(states, tids, acts) && i < k < |states| && Claims(states, tids, acts, i, m) && tids[i] == t
    && forall x | i < x <= k :: !PcOf(states[x], t).Idle?
  }

  // Step k is thread t's, and marks n at the bottom level.
  ghost predicate Takes(states: seq<State>, tids: seq<Tid>, acts: seq<Action>, t: Tid, k: nat, n: Id) {
    && k < |states| && k < |tids| && k < |acts| && tids[k] == t && acts[k].Proceed?
    && Marks(states[k], t, PcOf(states[k], t), n)
  }

  // At step k, thread t's search of its remove ends with n.
  ghost predicate EndsAt(states: seq<State>, tids: seq<Tid>, acts: seq<Action>, t: Tid, k: nat, n: Id) {
    && k < |states| && k < |tids| && k < |acts| && tids[k] == t && acts[k].Proceed?
    && Finds(states[k], PcOf(states[k], t), n)
  }

  // At step k, thread t's compare-and-swap of a bottom mark succeeds.
  ghost predicate WinsMark(states: seq<State>, tids: seq<Tid>, acts: seq<Action>, t: Tid, k: nat) {
    && k < |states| && k < |tids| && k < |acts| && tids[k] == t && acts[k].Proceed?
    && var pc := PcOf(states[k], t);
      pc.MarkCas? && pc.level == 0 && Swung(states[k], pc.node, 0, pc.succ, Link(pc.succ, true)).Some?
  }

  lemma ClaimStarts(states: seq<State>, tids: seq<Tid>, acts: seq<Action>, i: nat, m: Id)
    requires Run(states, tids, acts) && Claims(states, tids, acts, i, m)
    ensures m in states[i].nodes && m in states[i + 1].deleted
    ensures PcOf(states[i + 1], tids[i]) == Begin(states[i].nodes[m].prio, ToRemove, Path(map[], map[]))
  {
    RunKeeps(states, tids, acts, i);
    assert StepAt(states, tids, acts, i);
    assert PcOk(states[i], MinClaim(m));
  }

  lemma StepLeads(s: State, u: Tid, a: Action, s2: State, t: Tid)
    requires Step(s, u, a, s2) && !PcOf(s, t).Idle?
    ensures u != t ==> PcOf(s2, t) == PcOf(s, t)
    ensures u == t ==>
      a.Proceed? && Advance(s, t, PcOf(s, t)).Some? && PcOf(s2, t) == Advance(s, t, PcOf(s, t)).value.1
  {
  }

  // A step of someone else leaves thread t where it is, and a thread in a call can only proceed.
  lemma StepOf(states: seq<State>, tids: seq<Tid>, acts: seq<Action>, t: Tid, k: nat)
    requires Run(states, tids, acts) && k < |acts| && !PcOf(states[k], t).Idle?
    ensures if tids[k] == t then
        acts[k].Proceed? && Advance(states[k], t, PcOf(states[k], t)).Some? &&
        PcOf(states[k + 1], t) == Advance(states[k], t, PcOf(states[k], t)).value.1
      else PcOf(states[k + 1], t) == PcOf(states[k], t)
  {
    assert StepAt(states, tids, acts, k);
    StepLeads(states[k], tids[k], acts[k], states[k + 1], t);
  }

  lemma {:induction false} PastAt(states: seq<State>, tids: seq<Tid>, acts: seq<Action>, t: Tid, i: nat, m: Id, k: nat)
    requires Removing(states, tids, acts, t, i, m, k)
    ensures m in states[i].nodes && m in states[k].deleted && Past(PcOf(states[k], t), m, states[i].nodes[m].prio)
  {
    ClaimStarts(states, tids, acts, i, m);
    RunExtends(states, tids, acts, i + 1, k);
    if k > i + 1 {
      PastAt(states, tids, acts, t, i, m, k - 1);
      StepOf(states, tids, acts, t, k - 1);
      if tids[k - 1] == t { PastStep(states[k - 1], t, PcOf(states[k - 1], t), m, states[i].nodes[m].prio); }
    }
  }

  /** A removeMin never takes out the node it claimed: whatever it marks is another node of the same priority. */
  lemma NeverItsOwn(states: seq<State>, tids: seq<Tid>, acts: seq<Action>, t: Tid, i: nat, m: Id, k: nat, n: Id)
    requires Removing(states, tids, acts, t, i, m, k) && Takes(states, tids, acts, t, k, n)
    ensures n != m && n in states[k].nodes && m in states[k].nodes && states[k].nodes[n].prio == states[k].nodes[m].prio
  {
    PastAt(states, tids, acts, t, i, m, k);
    PastStep(states[k], t, PcOf(states[k], t), m, states[i].nodes[m].prio);
    RunKeeps(states, tids, acts, k);
    assert PcOk(states[k], PcOf(states[k], t));
    RunExtends(states, tids, acts, i, k);
  }

  // From step i on thread t is in a remove of this priority, on its own or at the end of a removeMin.
  ghost predicate InRemove(states: seq<State>, tids: seq<Tid>, acts: seq<Action>, t: Tid, i: nat, prio: int, k: nat) {
    && Run(states, tids, acts) && i < k < |states|
    && PcOf(states[i + 1], t) == Begin(prio, ToRemove, Path(map[], map[]))
    && forall x | i < x <= k :: !PcOf(states[x], t).Idle?
  }

  lemma {:induction false} RemovePcAt(states: seq<State>, tids: seq<Tid>, acts: seq<Action>, t: Tid, i: nat, prio: int,
                                      k: nat)
    requires InRemove(states, tids, acts, t, i, prio, k)
    ensures RemovePc(PcOf(states[k], t), prio)
  {
    if k > i + 1 {
      RemovePcAt(states, tids, acts, t, i, prio, k - 1);
      StepOf(states, tids, acts, t, k - 1);
      if tids[k - 1] == t { PhaseStep(states[k - 1], t, PcOf(states[k - 1], t), prio); }
    }
  }

  // Nothing was taken between steps i and k.
  ghost predicate NoneTaken(states: seq<State>, tids: seq<Tid>, acts: seq<Action>, t: Tid, i: nat, k: nat) {
    forall x: nat, n | i < x < k :: !Takes(states, tids, acts, t, x, n)
  }

  // The searches between steps i and k ended with n only.
  ghost predicate EndedOnly(states: seq<State>, tids: seq<Tid>, acts: seq<Action>, t: Tid, i: nat, k: nat, n: Id) {
    forall x: nat, n2 | i < x < k :: EndsAt(states, tids, acts, t, x, n2) ==> n2 == n
  }

  ghost predicate Ended(states: seq<State>, tids: seq<Tid>, acts: seq<Action>, t: Tid, i: nat, k: nat, n: Id) {
    exists x: nat :: i < x < k && EndsAt(states, tids, acts, t, x, n)
  }

  ghost predicate NeverEnded(states: seq<State>, tids: seq<Tid>, acts: seq<Action>, t: Tid, i: nat, k: nat) {
    forall x: nat, n | i < x < k :: !EndsAt(states, tids, acts, t, x, n)
  }

  // n was taken between steps i and k, once, and nothing else was.
  ghost predicate TakenOnly(states: seq<State>, tids: seq<Tid>, acts: seq<Action>, t: Tid, i: nat, k: nat, n: Id) {
    && (exists w: nat :: i < w < k && Takes(states, tids, acts, t, w, n))
    && forall x: nat, n2 | i < x < k :: Takes(states, tids, acts, t, x, n2) ==> n2 == n
  }

  // What a call has done so far shows in its phase.
  ghost predicate DoneSoFar(states: seq<State>, tids: seq<Tid>, acts: seq<Action>, t: Tid, i: nat, k: nat, phase: Phase) {
    match phase
    case Searching => NoneTaken(states, tids, acts, t, i, k) && NeverEnded(states, tids, acts, t, i, k)
    case Taking(n) =>
      && NoneTaken(states, tids, acts, t, i, k)
      && Ended(states, tids, acts, t, i, k, n) && EndedOnly(states, tids, acts, t, i, k, n)
    case Finishing =>
      exists n :: TakenOnly(states, tids, acts, t, i, k, n)
        && Ended(states, tids, acts, t, i, k, n) && EndedOnly(states, tids, acts, t, i, k, n)
    case Elsewhere => false
  }

  // A step in which thread t neither takes a node nor ends a search.
  lemma NothingNew(states: seq<State>, tids: seq<Tid>, acts: seq<Action>, t: Tid, i: nat, k: nat, phase: Phase)
    requires i < k && DoneSoFar(states, tids, acts, t, i, k, phase)
    requires forall n :: !Takes(states, tids, acts, t, k, n) && !EndsAt(states, tids, acts, t, k, n)
    ensures DoneSoFar(states, tids, acts, t, i, k + 1, phase)
  {
    match phase
    case Searching =>
    case Taking(n) =>
    case Finishing =>
      var n :| TakenOnly(states, tids, acts, t, i, k, n)
        && Ended(states, tids, acts, t, i, k, n) && EndedOnly(states, tids, acts, t, i, k, n);
      assert TakenOnly(states, tids, acts, t, i, k + 1, n);
  }

  // The search ends with n.
  lemma FoundNew(states: seq<State>, tids: seq<Tid>, acts: seq<Action>, t: Tid, i: nat, k: nat, n: Id)
    requires i < k && DoneSoFar(states, tids, acts, t, i, k, Searching)
    requires EndsAt(states, tids, acts, t, k, n) && forall n2 :: !Takes(states, tids, acts, t, k, n2)
    ensures DoneSoFar(states, tids, acts, t, i, k + 1, Taking(n))
  {
  }

  // The mark is won.
  lemma TakenNew(states: seq<State>, tids: seq<Tid>, acts: seq<Action>, t: Tid, i: nat, k: nat, n: Id)
    requires i < k && DoneSoFar(states, tids, acts, t, i, k, Taking(n))
    requires Takes(states, tids, acts, t, k, n)
    requires forall n2 :: (Takes(states, tids, acts, t, k, n2) ==> n2 == n) && !EndsAt(states, tids, acts, t, k, n2)
    ensures DoneSoFar(states, tids, acts, t, i, k + 1, Finishing)
  {
    assert TakenOnly(states, tids, acts, t, i, k + 1, n);
  }

  // What thread t's own step k does to its phase.
  lemma OwnStep(states: seq<State>, tids: seq<Tid>, acts: seq<Action>, t: Tid, i: nat, prio: int, k: nat)
    requires InRemove(states, tids, acts, t, i, prio, k) && k < |acts| && tids[k] == t
    requires DoneSoFar(states, tids, acts, t, i, k, PhaseOf(PcOf(states[k], t)))
    ensures !PcOf(states[k + 1], t).Idle? ==>
      DoneSoFar(states, tids, acts, t, i, k + 1, PhaseOf(PcOf(states[k + 1], t)))
    ensures PcOf(states[k + 1], t).Idle? ==> DoneSoFar(states, tids, acts, t, i, k + 1, PhaseOf(PcOf(states[k], t)))
  {
    var pc, pc2 := PcOf(states[k], t), PcOf(states[k + 1], t);
    RemovePcAt(states, tids, acts, t, i, prio, k);
    StepOf(states, tids, acts, t, k);
    PhaseStep(states[k], t, pc, prio);
    if PhaseOf(pc) == Searching && PhaseOf(pc2).Taking? {
      FoundNew(states, tids, acts, t, i, k, PhaseOf(pc2).node);
    } else if PhaseOf(pc).Taking? && PhaseOf(pc2) == Finishing {
      TakenNew(states, tids, acts, t, i, k, PhaseOf(pc).node);
    } else {
      NothingNew(states, tids, acts, t, i, k, PhaseOf(pc));
    }
  }

  lemma {:induction false} PhaseAt(states: seq<State>, tids: seq<Tid>, acts: seq<Action>, t: Tid, i: nat, prio: int, k: nat)
    requires InRemove(states, tids, acts, t, i, prio, k)
    ensures DoneSoFar(states, tids, acts, t, i, k, PhaseOf(PcOf(states[k], t)))
  {
    if k > i + 1 {
      PhaseAt(states, tids, acts, t, i, prio, k - 1);
      if tids[k - 1] == t {
        OwnStep(states, tids, acts, t, i, prio, k - 1);
      } else {
        StepOf(states, tids, acts, t, k - 1);
        NothingNew(states, tids, acts, t, i, k - 1, PhaseOf(PcOf(states[k - 1], t)));
      }
    }
  }

  // Thread t claimed m in step i, and its removeMin has not returned before state j.
  ghost predicate RemoveMin(states: seq<State>, tids: seq<Tid>, acts: seq<Action>, t: Tid, i: nat, m: Id, j: nat) {
    && Run(states, tids, acts) && i < j < |states| && Claims(states, tids, acts, i, m) && tids[i] == t
    && forall x | i < x < j :: !PcOf(states[x], t).Idle?
  }

  // Thread t's removeMin takes out n, which nobody has claimed.
  ghost predicate Steals(states: seq<State>, tids: seq<Tid>, acts: seq<Action>, t: Tid, k: nat, n: Id) {
    Takes(states, tids, acts, t, k, n) && n !in states[k].deleted
  }

  // A call that has won its mark took one node, the one its search ended with.
  lemma OneTaken(states: seq<State>, tids: seq<Tid>, acts: seq<Action>, t: Tid, i: nat, j: nat, n: Id)
    requires DoneSoFar(states, tids, acts, t, i, j, Finishing)
    ensures forall k: nat, n2 | i < k < j && Takes(states, tids, acts, t, k, n2) :: Ended(states, tids, acts, t, i, j, n2)
    ensures forall k: nat, n2, k2: nat, n3 | i < k < j && i < k2 < j ::
      Takes(states, tids, acts, t, k, n2) && Takes(states, tids, acts, t, k2, n3) ==> n2 == n3
    ensures forall k: nat, n2 | i < k < j && Takes(states, tids, acts, t, k, n2) ::
      Ended(states, tids, acts, t, i, j, n) ==> n2 == n
  {
    var n0 :| TakenOnly(states, tids, acts, t, i, j, n0)
      && Ended(states, tids, acts, t, i, j, n0) && EndedOnly(states, tids, acts, t, i, j, n0);
  }

  lemma LastPhase(states: seq<State>, tids: seq<Tid>, acts: seq<Action>, t: Tid, i: nat, prio: int, j: nat)
    returns (phase: Phase)
    requires Run(states, tids, acts) && i + 1 < j < |states|
    requires InRemove(states, tids, acts, t, i, prio, if PcOf(states[j], t).Idle? then j - 1 else j)
    ensures DoneSoFar(states, tids, acts, t, i, j, phase)
    ensures phase == PhaseOf(PcOf(states[if PcOf(states[j], t).Idle? then j - 1 else j], t))
  {
    if PcOf(states[j], t).Idle? {
      phase := PhaseOf(PcOf(states[j - 1], t));
      LastStep(states, tids, acts, t, i, prio, j - 1);
    } else {
      phase := PhaseOf(PcOf(states[j], t));
      PhaseAt(states, tids, acts, t, i, prio, j);
    }
  }

  // The step that returns changes nothing in what the call has done.
  lemma LastStep(states: seq<State>, tids: seq<Tid>, acts: seq<Action>, t: Tid, i: nat, prio: int, k: nat)
    requires InRemove(states, tids, acts, t, i, prio, k) && k < |acts| && PcOf(states[k + 1], t).Idle?
    ensures DoneSoFar(states, tids, acts, t, i, k + 1, PhaseOf(PcOf(states[k], t)))
  {
    PhaseAt(states, tids, acts, t, i, prio, k);
    StepOf(states, tids, acts, t, k);
    OwnStep(states, tids, acts, t, i, prio, k);
  }

  /** Up to any moment j of a removeMin, or its return: it takes out a node n that nobody has claimed if and only if its
      search ends with n, of the priority it claimed, and it wins the compare-and-swap of a bottom mark while n is still
      unclaimed. It takes out at most one node, and not the one it claimed. */
  lemma TheftIff(states: seq<State>, tids: seq<Tid>, acts: seq<Action>, t: Tid, i: nat, m: Id, j: nat, n: Id)
    requires RemoveMin(states, tids, acts, t, i, m, j)
    ensures (exists k: nat :: i < k < j && Steals(states, tids, acts, t, k, n)) <==>
      && Ended(states, tids, acts, t, i, j, n)
      && exists k: nat :: i < k < j && WinsMark(states, tids, acts, t, k) && n !in states[k].deleted
    ensures forall k: nat, n2, k2: nat, n3 | i < k < j && i < k2 < j ::
      Takes(states, tids, acts, t, k, n2) && Takes(states, tids, acts, t, k2, n3) ==> n2 == n3 != m
  {
    ClaimStarts(states, tids, acts, i, m);
    if j == i + 1 { return; }
    var phase := LastPhase(states, tids, acts, t, i, states[i].nodes[m].prio, j);
    forall k: nat | i < k < j && WinsMark(states, tids, acts, t, k)
      ensures Takes(states, tids, acts, t, k, PcOf(states[k], t).node)
    {
    }
    forall k: nat, n2 | i < k < j && Takes(states, tids, acts, t, k, n2)
      ensures WinsMark(states, tids, acts, t, k) && n2 != m
    {
      NeverItsOwn(states, tids, acts, t, i, m, k, n2);
    }
    if phase.Finishing? {
      OneTaken(states, tids, acts, t, i, j, n);
      if k: nat :| i < k < j && Ended(states, tids, acts, t, i, j, n) && WinsMark(states, tids, acts, t, k)
                   && n !in states[k].deleted {
        assert Takes(states, tids, acts, t, k, PcOf(states[k], t).node);
        assert Steals(states, tids, acts, t, k, n);
      }
    }
  }
}
