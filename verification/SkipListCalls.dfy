/** What each call of insert and remove does to the concurrent skip list by the time it returns, and that no call is ever
    stuck. */
module SkipListCalls {
  import opened Wrappers
  import opened SkipListNodes
  import opened SkipListSteps
  import opened SkipListRuns
  import opened SkipListSet
  import opened SkipListTheft

  // -- No call is stuck --

  lemma WalksOn(s: State, t: Tid, pc: Pc)
    requires Shared(s) && PcOk(s, pc) && (pc.Begin? || pc.AtPred? || pc.AtCurr? || pc.Looking? || pc.Snipping?)
    ensures Advance(s, t, pc).Some?
  {
    if pc.AtPred? { assert NodeOk(s, pc.c.pred); } else if pc.AtCurr? { assert NodeOk(s, pc.curr); }
  }

  lemma ConcludesOn(s: State, t: Tid, pc: Pc)
    requires Shared(s) && PcOk(s, pc) && (pc.Found? || pc.Linking?)
    ensures Advance(s, t, pc).Some?
  {
    if pc.Linking? { assert NodeOk(s, pc.node); } else { assert Reaches(s, pc.path.succs[0], 0); }
  }

  lemma MarksOn(s: State, t: Tid, pc: Pc)
    requires Shared(s) && PcOk(s, pc) && (pc.Marking? || pc.MarkCas? || Scanning(pc))
    ensures Advance(s, t, pc).Some?
  {
    if pc.Marking? { assert NodeOk(s, pc.node); } else if pc.MinNext? { assert NodeOk(s, pc.curr); }
  }

  /** In every reachable state every call in progress can take its next step, whatever the others do: nothing is locked, and
      no link or array entry that a step reads is missing. */
  lemma NeverBlocked(states: seq<State>, tids: seq<Tid>, acts: seq<Action>, i: nat, t: Tid)
    requires Run(states, tids, acts) && i < |states| && !PcOf(states[i], t).Idle?
    ensures Advance(states[i], t, PcOf(states[i], t)).Some?
  {
    RunKeeps(states, tids, acts, i);
    var s, pc := states[i], PcOf(states[i], t);
    assert PcOk(s, pc);
    if pc.Found? || pc.Linking? {
      ConcludesOn(s, t, pc);
    } else if pc.Marking? || pc.MarkCas? || Scanning(pc) {
      MarksOn(s, t, pc);
    } else {
      WalksOn(s, t, pc);
    }
  }

  // -- remove --

  // The last step of a remove.
  predicate RemoveEnds(s: State, pc: Pc, prio: int, phase: Phase) {
    match phase
    case Searching =>
      pc.Found? && pc.goal.ToRemove? && 0 in pc.path.succs && pc.path.succs[0] in s.nodes &&
      s.nodes[pc.path.succs[0]].prio != prio
    case Taking(n) => pc.Marking? && pc.node == n && (n, 0) in s.next && s.next[(n, 0)].marked
    case Finishing => pc.Found? && pc.goal.ToFinish?
    case Elsewhere => false
  }

  lemma RemoveEndsOnly(s: State, t: Tid, pc: Pc, prio: int)
    requires RemovePc(pc, prio) && !pc.Idle? && Advance(s, t, pc).Some? && Advance(s, t, pc).value.1.Idle?
    ensures RemoveEnds(s, pc, prio, PhaseOf(pc))
  {
  }

  /** When a remove returns, alone or at the end of a removeMin, exactly one of three things is so: it took nothing, and its
      search had ended without a node of its priority; it took nothing, and the node its search had ended with is marked by
      now; or it took out exactly one node, of its priority, that its search had ended with, and has searched again. */
  lemma RemoveAnswers(states: seq<State>, tids: seq<Tid>, acts: seq<Action>, t: Tid, i: nat, prio: int, j: nat)
    requires i + 1 < j < |states| && InRemove(states, tids, acts, t, i, prio, j - 1) && PcOf(states[j], t).Idle?
    ensures var s, pc := states[j - 1], PcOf(states[j - 1], t);
      && RemoveEnds(s, pc, prio, PhaseOf(pc))
      && match PhaseOf(pc)
         case Searching => NoneTaken(states, tids, acts, t, i, j) && NeverEnded(states, tids, acts, t, i, j)
         case Taking(n) => NoneTaken(states, tids, acts, t, i, j) && Ended(states, tids, acts, t, i, j, n)
         case Finishing => exists n :: TakenOnly(states, tids, acts, t, i, j, n) && Ended(states, tids, acts, t, i, j, n)
         case Elsewhere => false
  {
    RemovePcAt(states, tids, acts, t, i, prio, j - 1);
    StepOf(states, tids, acts, t, j - 1);
    var phase := LastPhase(states, tids, acts, t, i, prio, j);
    RemoveEndsOnly(states[j - 1], t, PcOf(states[j - 1], t), prio);
  }

  /** What a call takes is of the priority it was asked for. */
  lemma TakesItsPriority(states: seq<State>, tids: seq<Tid>, acts: seq<Action>, t: Tid, i: nat, prio: int, k: nat, n: Id)
    requires InRemove(states, tids, acts, t, i, prio, k) && Takes(states, tids, acts, t, k, n)
    ensures n in states[k].nodes && states[k].nodes[n].prio == prio
  {
    RemovePcAt(states, tids, acts, t, i, prio, k);
    RunKeeps(states, tids, acts, k);
    assert PcOk(states[k], PcOf(states[k], t));
  }

  // -- The order of the marks --

  // All links of the node above the level that is being marked are marked.
  predicate UpperMarked(s: State, pc: Pc) {
    pc.Marking? || pc.MarkCas? ==>
      pc.node in s.nodes && forall l: nat | pc.level < l <= s.nodes[pc.node].top :: LinkMarked(s, pc.node, l)
  }

  predicate LinkMarked(s: State, n: Id, l: nat) { (n, l) in s.next && s.next[(n, l)].marked }

  lemma UpperStable(s: State, s2: State, pc: Pc)
    requires UpperMarked(s, pc) && Extends(s, s2)
    ensures UpperMarked(s2, pc)
  {
    if pc.Marking? || pc.MarkCas? {
      forall l: nat | pc.level < l <= s2.nodes[pc.node].top ensures LinkMarked(s2, pc.node, l) {
        assert LinkMarked(s, pc.node, l);
      }
    }
  }

  lemma UpperStep(s: State, t: Tid, pc: Pc)
    requires Shared(s) && PcOk(s, pc) && UpperMarked(s, pc) && Advance(s, t, pc).Some?
    ensures UpperMarked(Advance(s, t, pc).value.0, Advance(s, t, pc).value.1)
  {
    AdvanceKeeps(s, t, pc);
    var s2 := Advance(s, t, pc).value.0;
    if pc.Marking? || pc.MarkCas? {
      UpperStable(s, s2, pc);
      if pc.Marking? && LinkMarked(s, pc.node, pc.level) { assert LinkMarked(s2, pc.node, pc.level); }
    }
  }

  lemma {:induction false} UpperAt(states: seq<State>, tids: seq<Tid>, acts: seq<Action>, k: nat, t: Tid)
    requires Run(states, tids, acts) && k < |states|
    ensures UpperMarked(states[k], PcOf(states[k], t))
  {
    if k > 0 {
      UpperAt(states, tids, acts, k - 1, t);
      RunKeeps(states, tids, acts, k - 1);
      var s, pc := states[k - 1], PcOf(states[k - 1], t);
      assert StepAt(states, tids, acts, k - 1);
      StepExtends(s, tids[k - 1], acts[k - 1], states[k]);
      if pc.Idle? {
        IdleGoes(s, tids[k - 1], acts[k - 1], states[k], t);
      } else {
        StepOf(states, tids, acts, t, k - 1);
        if tids[k - 1] == t {
          assert PcOk(s, pc);
          UpperStep(s, t, pc);
          UpperThreads(Advance(s, t, pc).value.0, states[k], PcOf(states[k], t));
        } else {
          UpperStable(s, states[k], pc);
        }
      }
    }
  }

  lemma IdleGoes(s: State, u: Tid, a: Action, s2: State, t: Tid)
    requires Step(s, u, a, s2) && PcOf(s, t).Idle?
    ensures !PcOf(s2, t).Marking? && !PcOf(s2, t).MarkCas?
  {
  }

  lemma UpperThreads(s: State, s2: State, pc: Pc)
    requires UpperMarked(s, pc) && s2.nodes == s.nodes && s2.next == s.next
    ensures UpperMarked(s2, pc)
  {
    if pc.Marking? || pc.MarkCas? {
      forall l: nat | pc.level < l <= s2.nodes[pc.node].top ensures LinkMarked(s2, pc.node, l) {
        assert LinkMarked(s, pc.node, l);
      }
    }
  }

  /** A node is marked from the top down: when its bottom link is marked all its other links are. */
  lemma MarksTopDown(states: seq<State>, tids: seq<Tid>, acts: seq<Action>, t: Tid, k: nat, n: Id)
    requires Run(states, tids, acts) && Takes(states, tids, acts, t, k, n)
    ensures n in states[k].nodes
    ensures forall l: nat | 1 <= l <= states[k].nodes[n].top :: (n, l) in states[k].next && states[k].next[(n, l)].marked
  {
    UpperAt(states, tids, acts, k, t);
    forall l: nat | 1 <= l <= states[k].nodes[n].top ensures (n, l) in states[k].next && states[k].next[(n, l)].marked {
      assert LinkMarked(states[k], n, l);
    }
  }

  // -- insert --

  // What an insert is at: it looks for its place, or has published its node and is about to link it at a level.
  datatype InsertPhase = Seeking | Placing(node: Id, level: nat) | Other

  function GoalOf(goal: Goal): InsertPhase {
    match goal
    case ToInsert(_) => Seeking
    case ToLink(node, level) => Placing(node, level)
    case _ => Other
  }

  function InsertPhaseOf(pc: Pc): InsertPhase {
    match pc
    case Begin(_, goal, _) => GoalOf(goal)
    case AtPred(c) => GoalOf(c.goal)
    case AtCurr(c, _) => GoalOf(c.goal)
    case Looking(c, _, _) => GoalOf(c.goal)
    case Snipping(c, _, _) => GoalOf(c.goal)
    case Found(_, goal, _) => GoalOf(goal)
    case Linking(_, node, level, _) => Placing(node, level)
    case _ => Other
  }

  predicate InsertGoal(goal: Goal, top: nat) { goal == ToInsert(top) || goal.ToLink? }

  // Within an insert of this priority and level.
  predicate InsertPc(pc: Pc, prio: int, top: nat) {
    match pc
    case Idle => true
    case Begin(p, goal, _) => p == prio && InsertGoal(goal, top)
    case AtPred(c) => c.prio == prio && InsertGoal(c.goal, top)
    case AtCurr(c, _) => c.prio == prio && InsertGoal(c.goal, top)
    case Looking(c, _, _) => c.prio == prio && InsertGoal(c.goal, top)
    case Snipping(c, _, _) => c.prio == prio && InsertGoal(c.goal, top)
    case Found(p, goal, _) => p == prio && InsertGoal(goal, top)
    case Linking(p, _, _, _) => p == prio
    case _ => false
  }

  // The step links node n at level l.
  predicate LinksIn(s: State, t: Tid, pc: Pc, n: Id, l: nat) {
    && pc.Linking? && pc.node == n && pc.level == l && l in pc.path.preds && Advance(s, t, pc).Some?
    && Advance(s, t, pc).value.0 == s.(next := s.next[(pc.path.preds[l], l) := Link(n, false)])
    && Advance(s, t, pc).value.1.Linking?
  }

  // The last step of an insert.
  predicate InsertEnds(s: State, pc: Pc, prio: int, phase: InsertPhase) {
    match phase
    case Seeking =>
      pc.Found? && 0 in pc.path.succs && pc.path.succs[0] in s.nodes && s.nodes[pc.path.succs[0]].prio == prio
    case Placing(n, l) => n in s.nodes && l > s.nodes[n].top
    case Other => false
  }

  lemma InsertStep(s: State, t: Tid, pc: Pc, prio: int, top: nat)
    requires InsertPc(pc, prio, top) && !pc.Idle? && Advance(s, t, pc).Some?
    ensures InsertPc(Advance(s, t, pc).value.1, prio, top)
    ensures var pc2 := Advance(s, t, pc).value.1;
      match InsertPhaseOf(pc)
      case Seeking =>
        if Publishes(s, t, pc) then InsertPhaseOf(pc2) == Placing(|s.nodes|, 1)
        else if pc2.Idle? then InsertEnds(s, pc, prio, Seeking)
        else InsertPhaseOf(pc2) == Seeking
      case Placing(n, l) =>
        && !Publishes(s, t, pc)
        && if LinksIn(s, t, pc, n, l) then InsertPhaseOf(pc2) == Placing(n, l + 1)
           else if pc2.Idle? then InsertEnds(s, pc, prio, Placing(n, l))
           else InsertPhaseOf(pc2) == Placing(n, l)
      case Other => false
  {
  }

  // From step i on thread t is in an insert of this priority and level.
  ghost predicate InInsert(states: seq<State>, tids: seq<Tid>, acts: seq<Action>, t: Tid, i: nat, prio: int, top: nat,
                           k: nat) {
    && Run(states, tids, acts) && i < k < |states|
    && PcOf(states[i + 1], t) == Begin(prio, ToInsert(top), Path(map[], map[]))
    && forall x | i < x <= k :: !PcOf(states[x], t).Idle?
  }

  // Step k is thread t's, and publishes node n.
  ghost predicate PublishesAt(states: seq<State>, tids: seq<Tid>, acts: seq<Action>, t: Tid, k: nat, n: Id) {
    && k + 1 < |states| && k < |tids| && k < |acts| && tids[k] == t && acts[k].Proceed?
    && PcOf(states[k], t).Found? && PcOf(states[k], t).goal.ToInsert? && PcOf(states[k + 1], t).Linking?
    && n == |states[k].nodes|
  }

  // Step k is thread t's, and links node n at level l.
  ghost predicate LinksAt(states: seq<State>, tids: seq<Tid>, acts: seq<Action>, t: Tid, k: nat, n: Id, l: nat) {
    && k + 1 < |states| && k < |tids| && k < |acts| && tids[k] == t && acts[k].Proceed? && PcOf(states[k + 1], t).Linking?
    && var pc := PcOf(states[k], t);
      && pc.Linking? && pc.node == n && pc.level == l && l in pc.path.preds
      && states[k + 1].next == states[k].next[(pc.path.preds[l], l) := Link(n, false)]
  }

  ghost predicate NonePublished(states: seq<State>, tids: seq<Tid>, acts: seq<Action>, t: Tid, i: nat, k: nat) {
    forall x: nat, n | i < x < k :: !PublishesAt(states, tids, acts, t, x, n)
  }

  // n was published between steps i and k, and nothing else was.
  ghost predicate PublishedOnly(states: seq<State>, tids: seq<Tid>, acts: seq<Action>, t: Tid, i: nat, k: nat, n: Id) {
    && (exists x: nat :: i < x < k && PublishesAt(states, tids, acts, t, x, n))
    && forall x: nat, n2 | i < x < k :: PublishesAt(states, tids, acts, t, x, n2) ==> n2 == n
  }

  ghost predicate LinkedBy(states: seq<State>, tids: seq<Tid>, acts: seq<Action>, t: Tid, i: nat, k: nat, n: Id, l: nat) {
    exists x: nat :: i < x < k && LinksAt(states, tids, acts, t, x, n, l)
  }

  // What an insert has done so far shows in its phase.
  ghost predicate Inserted(states: seq<State>, tids: seq<Tid>, acts: seq<Action>, t: Tid, i: nat, k: nat,
                           phase: InsertPhase) {
    match phase
    case Seeking => NonePublished(states, tids, acts, t, i, k)
    case Placing(n, l) =>
      && PublishedOnly(states, tids, acts, t, i, k, n)
      && forall m: nat | 1 <= m < l :: LinkedBy(states, tids, acts, t, i, k, n, m)
    case Other => false
  }

  lemma NothingDone(states: seq<State>, tids: seq<Tid>, acts: seq<Action>, t: Tid, i: nat, k: nat, phase: InsertPhase)
    requires i < k && Inserted(states, tids, acts, t, i, k, phase)
    requires forall n :: !PublishesAt(states, tids, acts, t, k, n)
    ensures Inserted(states, tids, acts, t, i, k + 1, phase)
  {
    if phase.Placing? {
      var k2 := k + 1;
      forall m: nat | 1 <= m < phase.level ensures LinkedBy(states, tids, acts, t, i, k2, phase.node, m) {
        assert LinkedBy(states, tids, acts, t, i, k, phase.node, m);
      }
    }
  }

  lemma PublishDone(states: seq<State>, tids: seq<Tid>, acts: seq<Action>, t: Tid, i: nat, k: nat, n: Id)
    requires i < k && Inserted(states, tids, acts, t, i, k, Seeking) && PublishesAt(states, tids, acts, t, k, n)
    ensures Inserted(states, tids, acts, t, i, k + 1, Placing(n, 1))
  {
  }

  lemma LinkDone(states: seq<State>, tids: seq<Tid>, acts: seq<Action>, t: Tid, i: nat, k: nat, n: Id, l: nat)
    requires i < k && Inserted(states, tids, acts, t, i, k, Placing(n, l)) && LinksAt(states, tids, acts, t, k, n, l)
    ensures Inserted(states, tids, acts, t, i, k + 1, Placing(n, l + 1))
  {
    NothingDone(states, tids, acts, t, i, k, Placing(n, l));
    assert LinkedBy(states, tids, acts, t, i, k + 1, n, l);
  }

  lemma {:induction false} InsertPcAt(states: seq<State>, tids: seq<Tid>, acts: seq<Action>, t: Tid, i: nat, prio: int,
                                      top: nat, k: nat)
    requires InInsert(states, tids, acts, t, i, prio, top, k)
    ensures InsertPc(PcOf(states[k], t), prio, top)
  {
    if k > i + 1 {
      InsertPcAt(states, tids, acts, t, i, prio, top, k - 1);
      StepOf(states, tids, acts, t, k - 1);
      if tids[k - 1] == t { InsertStep(states[k - 1], t, PcOf(states[k - 1], t), prio, top); }
    }
  }

  // What thread t's own step k does to its phase.
  lemma InsertOwnStep(states: seq<State>, tids: seq<Tid>, acts: seq<Action>, t: Tid, i: nat, prio: int, top: nat, k: nat)
    requires InInsert(states, tids, acts, t, i, prio, top, k) && k < |acts| && tids[k] == t
    requires Inserted(states, tids, acts, t, i, k, InsertPhaseOf(PcOf(states[k], t)))
    ensures var pc2 := PcOf(states[k + 1], t);
      Inserted(states, tids, acts, t, i, k + 1, InsertPhaseOf(if pc2.Idle? then PcOf(states[k], t) else pc2))
  {
    var pc, pc2 := PcOf(states[k], t), PcOf(states[k + 1], t);
    InsertPcAt(states, tids, acts, t, i, prio, top, k);
    StepOf(states, tids, acts, t, k);
    assert StepAt(states, tids, acts, k);
    InsertStep(states[k], t, pc, prio, top);
    var phase := InsertPhaseOf(pc);
    if Publishes(states[k], t, pc) {
      PublishDone(states, tids, acts, t, i, k, |states[k].nodes|);
    } else if phase.Placing? && LinksIn(states[k], t, pc, phase.node, phase.level) {
      LinkDone(states, tids, acts, t, i, k, phase.node, phase.level);
    } else {
      NothingDone(states, tids, acts, t, i, k, phase);
    }
  }

  lemma {:induction false} InsertAt(states: seq<State>, tids: seq<Tid>, acts: seq<Action>, t: Tid, i: nat, prio: int,
                                    top: nat, k: nat)
    requires InInsert(states, tids, acts, t, i, prio, top, k)
    ensures Inserted(states, tids, acts, t, i, k, InsertPhaseOf(PcOf(states[k], t)))
  {
    if k > i + 1 {
      InsertAt(states, tids, acts, t, i, prio, top, k - 1);
      if tids[k - 1] == t {
        InsertOwnStep(states, tids, acts, t, i, prio, top, k - 1);
      } else {
        StepOf(states, tids, acts, t, k - 1);
        NothingDone(states, tids, acts, t, i, k - 1, InsertPhaseOf(PcOf(states[k - 1], t)));
      }
    }
  }

  // The published node has the priority and level asked for.
  lemma PublishedNode(states: seq<State>, tids: seq<Tid>, acts: seq<Action>, t: Tid, i: nat, prio: int, top: nat, x: nat,
                      j: nat, n: Id)
    requires InInsert(states, tids, acts, t, i, prio, top, x) && PublishesAt(states, tids, acts, t, x, n)
    requires x < j < |states|
    ensures n in states[j].nodes && states[j].nodes[n] == Info(prio, top)
  {
    InsertPcAt(states, tids, acts, t, i, prio, top, x);
    RunKeeps(states, tids, acts, x);
    var s, pc := states[x], PcOf(states[x], t);
    assert PcOk(s, pc) && StepAt(states, tids, acts, x);
    AllocKeeps(s, t, pc);
    PublishParts(s, t, pc);
    RunExtends(states, tids, acts, x + 1, j);
  }

  /** When an insert returns, exactly one of two things is so: it published nothing, and its search had ended at a node of its
      priority; or it published exactly one node, of the priority and level asked for, and linked it at each level up to
      that one. */
  lemma InsertAnswers(states: seq<State>, tids: seq<Tid>, acts: seq<Action>, t: Tid, i: nat, prio: int, top: nat, j: nat)
    requires i + 1 < j < |states| && InInsert(states, tids, acts, t, i, prio, top, j - 1) && PcOf(states[j], t).Idle?
    ensures var s, pc := states[j - 1], PcOf(states[j - 1], t);
      match InsertPhaseOf(pc)
      case Seeking => NonePublished(states, tids, acts, t, i, j) && InsertEnds(s, pc, prio, Seeking)
      case Placing(n, l) =>
        && PublishedOnly(states, tids, acts, t, i, j, n) && n in states[j].nodes && states[j].nodes[n] == Info(prio, top)
        && forall m: nat | 1 <= m <= top :: LinkedBy(states, tids, acts, t, i, j, n, m)
      case Other => false
  {
    InsertAt(states, tids, acts, t, i, prio, top, j - 1);
    InsertPcAt(states, tids, acts, t, i, prio, top, j - 1);
    StepOf(states, tids, acts, t, j - 1);
    InsertOwnStep(states, tids, acts, t, i, prio, top, j - 1);
    InsertStep(states[j - 1], t, PcOf(states[j - 1], t), prio, top);
    var phase := InsertPhaseOf(PcOf(states[j - 1], t));
    if phase.Placing? {
      var x: nat :| i < x < j && PublishesAt(states, tids, acts, t, x, phase.node);
      PublishedNode(states, tids, acts, t, i, prio, top, x, j, phase.node);
      RunExtends(states, tids, acts, j - 1, j);
    }
  }
}
