/** Who runs which callback, when the list drains, and when the shared state is freed. */
module StopOutcome {
  import opened StopWord
  import opened Wrappers
  import opened StopProtocol
  import opened StopInvariant
  import opened StopSteps
  import opened StopRuns
  import opened StopTheorems

  // -- Executions --

  // The registration was accepted: the constructor put the callback into the list and returned.
  predicate Accepted(p: Phase) {
    p.Linked? || p.Current? || p.Ran? || p.Unlinked? || (p.Gone? && (p.end.Unrun? || p.end.AfterRun? || p.end.Inside?))
  }
  predicate TakenOutUnrun(p: Phase) { p.Unlinked? || p == Gone(Unrun) }

  /** At most one __request_stop wins and no callback is ever executed twice. Once the winner has returned,
      every accepted callback was either taken out of the list and never executed, or executed exactly once and
      by the winner. A constructor that saw the stop executed its callback exactly once, on its own thread. */
  lemma EveryCallbackOnce(states: seq<State>, tids: seq<Tid>, acts: seq<Action>, i: nat)
    requires Run(states, tids, acts) && i < |states|
    ensures var g := states[i].g;
      && g.wins <= 1
      && (forall cb :: NeverRan(g.execs, cb) || exists t :: RanOnce(g.execs, cb, t))
      && (g.drain.Over? ==> forall cb | cb in g.phase && Accepted(g.phase[cb]) ::
            if TakenOutUnrun(g.phase[cb]) then NeverRan(g.execs, cb) else RanOnce(g.execs, cb, g.drain.tid))
      && (forall cb | cb in g.phase && g.phase[cb].Gone? && g.phase[cb].end.Inlined? ::
            RanOnce(g.execs, cb, g.phase[cb].end.tid))
  {
    RunKeeps(states, tids, acts, i);
    var g := states[i].g;
    forall cb ensures NeverRan(g.execs, cb) || exists t :: RanOnce(g.execs, cb, t) { assert CbOk(g, cb); }
    forall cb | cb in g.phase
      ensures g.drain.Over? && Accepted(g.phase[cb]) ==>
        if TakenOutUnrun(g.phase[cb]) then NeverRan(g.execs, cb) else RanOnce(g.execs, cb, g.drain.tid)
      ensures g.phase[cb].Gone? && g.phase[cb].end.Inlined? ==> RanOnce(g.execs, cb, g.phase[cb].end.tid)
    {
      assert CbOk(g, cb);
    }
  }

  // A registration that has not been accepted (yet).
  predicate NotInList(p: Phase) {
    p.Building? || p.Inlining? || (p.Gone? && (p.end.Refused? || p.end.Inlined?))
  }

  lemma NotInListBefore(states: seq<State>, tids: seq<Tid>, acts: seq<Action>, i: nat, cb: Cb)
    requires Run(states, tids, acts) && i < |acts|
    requires cb in states[i + 1].g.phase ==> NotInList(states[i + 1].g.phase[cb])
    ensures cb in states[i].g.phase ==> NotInList(states[i].g.phase[cb])
  {
    var me := StepGuarantees(states, tids, acts, i);
    assert CbMoves(states[i].g, states[i + 1].g, me, cb);
  }

  /** A registration that saw the stop, or was refused, never entered the list at any earlier time. */
  lemma {:induction false} InlinedNeverListed(states: seq<State>, tids: seq<Tid>, acts: seq<Action>, i: nat, j: nat, cb: Cb)
    requires Run(states, tids, acts) && i <= j < |states|
    requires cb in states[j].g.phase ==> NotInList(states[j].g.phase[cb])
    ensures cb !in states[i].g.list
  {
    if i < j {
      NotInListBefore(states, tids, acts, j - 1, cb);
      InlinedNeverListed(states, tids, acts, i, j - 1, cb);
    } else {
      RunKeeps(states, tids, acts, i);
      assert CbOk(states[i].g, cb);
    }
  }

  /** A registration refused for lack of sources misses nothing: no stop was or ever will be requested. */
  lemma RefusedMissesNothing(states: seq<State>, tids: seq<Tid>, acts: seq<Action>, i: nat, j: nat, cb: Cb)
    requires Run(states, tids, acts) && i <= j < |states|
    requires cb in states[i].g.phase && states[i].g.phase[cb] == Gone(Refused)
    ensures states[j].g.wins == 0 && states[j].g.sources == {}
  {
    GoneForever(states, tids, acts, i, j, cb);
    RunKeeps(states, tids, acts, j);
    assert CbOk(states[j].g, cb);
  }

  // -- Draining --

  ghost predicate ShrinksTo(list: seq<Cb>, list2: seq<Cb>) {
    list2 == list || exists cb :: cb in list && list2 == Remove(list, cb)
  }

  lemma FrameShrinksList(g: Shared, me: Slot, f: Frame, k: Kind)
    requires WordOk(g) && FrameOk(g, me, f) && Stopped(g) && !Advance(g, me, f, k).Blocked?
    ensures ShrinksTo(g.list, Advance(g, me, f, k).after.list)
    ensures !f.Draining? ==> Advance(g, me, f, k).after.drain == g.drain
  {
    if f.Draining? && f.dpc.Head? && g.list != [] {
      assert g.list[0] in g.list && Remove(g.list, g.list[0]) == g.list[1..];
    } else if f.Asking? {
      WordFacts(g);
    }
  }

  lemma StepShrinksList(s: State, t: Tid, a: Action, s2: State)
    requires Inv(s) && Step(s, t, a, s2) && Stopped(s.g)
    ensures ShrinksTo(s.g.list, s2.g.list)
    ensures s.g.drain.Over? ==> s2.g.drain == s.g.drain
  {
    if a.Internal? {
      TopFacts(s, t);
      var top := |StackOf(s, t)| - 1;
      FrameShrinksList(s.g, Slot(t, top), StackOf(s, t)[top], a.kind);
    }
  }

  /** After the stop flag is set the list only loses elements, at most one a step. */
  lemma ListOnlyShrinks(states: seq<State>, tids: seq<Tid>, acts: seq<Action>, i: nat)
    requires Run(states, tids, acts) && i < |acts| && Stopped(states[i].g)
    ensures ShrinksTo(states[i].g.list, states[i + 1].g.list)
  {
    RunKeeps(states, tids, acts, i);
    var s, t := states[i], tids[i];
    assert StepAt(states, tids, acts, i);
    StepShrinksList(s, t, acts[i], states[i + 1]);
  }

  // How far the winner is from returning, besides the elements still in the list.
  function DrainRank(pc: DrainPc): nat {
    match pc
    case Publish => 13
    case Relock(_) => 2
    case Head => 1
    case Last => 0
    case Next(more) => if more then 3 else 0
    case On(_, _, stage) =>
      (match stage
       case Unlocking => 10 case Arming => 9 case Calling => 8 case Running => 7
       case Returned => 6 case Disarming => 5 case Finishing => 4)
  }

  // The pair (elements in the list, rank) of the winner decreases in this order.
  predicate Below(n: nat, pc: DrainPc, m: nat, pc2: DrainPc) {
    n < m || (n == m && DrainRank(pc) < DrainRank(pc2))
  }

  lemma DrainRankFalls(g: Shared, me: Slot, f: Frame, k: Kind)
    requires f.Draining? && !DrainStep(g, me, f, k).Blocked?
    ensures var g2 := DrainStep(g, me, f, k).after;
      if k == Read then
        g2.drain.Active? && g2.list == g.list && DrainRank(g2.drain.pc) == DrainRank(f.dpc)
      else g2.drain == Over(me.tid) || (g2.drain.Active? && Below(|g2.list|, g2.drain.pc, |g.list|, f.dpc))
  {
  }

  // The winner's own step.
  ghost predicate WinnerSteps(s: State, t: Tid, a: Action) {
    s.g.drain.Active? && a.Internal? && t == s.g.drain.slot.tid && |StackOf(s, t)| == s.g.drain.slot.at + 1
  }

  lemma ShorterList(s: State, t: Tid, a: Action, s2: State)
    requires Inv(s) && Step(s, t, a, s2) && Stopped(s.g)
    ensures |s2.g.list| <= |s.g.list|
  {
    StepShrinksList(s, t, a, s2);
    if s2.g.list != s.g.list {
      var cb :| cb in s.g.list && s2.g.list == Remove(s.g.list, cb);
      RemoveFrom(s.g.list, cb);
    }
  }

  lemma StepDrains(s: State, t: Tid, a: Action, s2: State)
    requires Inv(s) && Step(s, t, a, s2) && s.g.drain.Active?
    ensures if WinnerSteps(s, t, a) && a.kind != Read then
        s2.g.drain.Over? || (s2.g.drain.Active? && Below(|s2.g.list|, s2.g.drain.pc, |s.g.list|, s.g.drain.pc))
      else
        && s2.g.drain.Active? && DrainRank(s2.g.drain.pc) == DrainRank(s.g.drain.pc)
        && (WinnerSteps(s, t, a) || s2.g.drain == s.g.drain)
  {
    assert PlaceOk(s, s.g.drain.slot.tid, s.g.drain.slot.at);
    if a.Internal? {
      TopFacts(s, t);
      var top := |StackOf(s, t)| - 1;
      var f := StackOf(s, t)[top];
      FrameShrinksList(s.g, Slot(t, top), f, a.kind);
      if f.Draining? { DrainRankFalls(s.g, Slot(t, top), f, a.kind); }
    }
  }

  /** Each of the winner's steps, apart from polling the lock, lowers the pair (length of the list, rank), and neither
      polling nor a step of anyone else raises it. */
  lemma DrainTerminates(states: seq<State>, tids: seq<Tid>, acts: seq<Action>, i: nat)
    requires Run(states, tids, acts) && i < |acts| && states[i].g.drain.Active?
    ensures var g, g2 := states[i].g, states[i + 1].g;
      if WinnerSteps(states[i], tids[i], acts[i]) && acts[i].kind != Read then
        g2.drain.Over? || (g2.drain.Active? && Below(|g2.list|, g2.drain.pc, |g.list|, g.drain.pc))
      else
        && g2.drain.Active? && |g2.list| <= |g.list| && DrainRank(g2.drain.pc) == DrainRank(g.drain.pc)
        && (WinnerSteps(states[i], tids[i], acts[i]) || g2.drain == g.drain)
  {
    RunKeeps(states, tids, acts, i);
    assert StepAt(states, tids, acts, i);
    ShorterList(states[i], tids[i], acts[i], states[i + 1]);
    StepDrains(states[i], tids[i], acts[i], states[i + 1]);
  }

  // The winner's steps between two moments of a run, apart from polling the lock.
  ghost function WinnerMoves(states: seq<State>, tids: seq<Tid>, acts: seq<Action>, i: nat, j: nat): nat
    requires i <= j < |states| && |states| == |tids| + 1 == |acts| + 1
    decreases j
  {
    if i == j then 0
    else
      var moves := WinnerSteps(states[j - 1], tids[j - 1], acts[j - 1]) && acts[j - 1].kind != Read;
      WinnerMoves(states, tids, acts, i, j - 1) + if moves then 1 else 0
  }

  // A bound on the steps that the winner has left.
  function Potential(g: Shared): nat
    requires g.drain.Active?
  {
    14 * |g.list| + DrainRank(g.drain.pc)
  }

  /** The drain loop terminates: over any stretch of a run in which the winner has not returned, its steps, apart from
      polling the lock, number at most fourteen for each callback in the list at the start, plus thirteen. */
  lemma {:induction false} DrainBound(states: seq<State>, tids: seq<Tid>, acts: seq<Action>, i: nat, j: nat)
    requires Run(states, tids, acts) && i <= j < |states| && forall k | i <= k <= j :: states[k].g.drain.Active?
    ensures WinnerMoves(states, tids, acts, i, j) + Potential(states[j].g) <= Potential(states[i].g)
    ensures WinnerMoves(states, tids, acts, i, j) <= 14 * |states[i].g.list| + 13
    decreases j
  {
    if i < j {
      DrainBound(states, tids, acts, i, j - 1);
      DrainTerminates(states, tids, acts, j - 1);
    }
  }

  lemma OverStays(states: seq<State>, tids: seq<Tid>, acts: seq<Action>, i: nat)
    requires Run(states, tids, acts) && i < |acts| && states[i].g.drain.Over?
    ensures states[i + 1].g.drain == states[i].g.drain
  {
    RunKeeps(states, tids, acts, i);
    assert StepAt(states, tids, acts, i);
    StepShrinksList(states[i], tids[i], acts[i], states[i + 1]);
  }

  lemma OverIsEmpty(states: seq<State>, tids: seq<Tid>, acts: seq<Action>, i: nat)
    requires Run(states, tids, acts) && i < |states| && states[i].g.drain.Over?
    ensures states[i].g.list == []
  {
    RunKeeps(states, tids, acts, i);
  }

  /** The winner's lock-free early return is safe: when it has returned the list is empty, and stays so. */
  lemma {:induction false} EmptyForEver(states: seq<State>, tids: seq<Tid>, acts: seq<Action>, i: nat, j: nat)
    requires Run(states, tids, acts) && i <= j < |states| && states[i].g.drain.Over?
    ensures states[j].g.drain == states[i].g.drain && states[j].g.list == []
  {
    if i < j {
      EmptyForEver(states, tids, acts, i, j - 1);
      OverStays(states, tids, acts, j - 1);
    }
    OverIsEmpty(states, tids, acts, j);
  }

  // -- Freeing the shared state --

  // Nothing refers to the shared state any more.
  predicate Unreferenced(g: Shared) { g.tokens == {} && g.attached == {} && g.sources == {} }

  // The step gives up a reference through __remove_token_reference.
  predicate DropsTokenRef(s: State, t: Tid, a: Action) {
    a.DropToken? ||
    (a == Internal(Go) && var stack := StackOf(s, t);
      stack != [] && var f := stack[|stack| - 1]; f.Deleting? && f.rpc.Drop?)
  }

  // A source is left, or this is the last reference.
  predicate Careful(s: State, t: Tid, a: Action) {
    DropsTokenRef(s, t, a) ==> s.g.sources != {} || Refs(s.g) == 1
  }

  lemma UnreferencedMeans(g: Shared)
    ensures Unreferenced(g) <==> Refs(g) == 0 && |g.sources| == 0
  {
  }

  lemma FrameFrees(g: Shared, me: Slot, f: Frame, k: Kind)
    requires GInv(g) && FrameOk(g, me, f) && !Advance(g, me, f, k).Blocked?
    ensures var g2 := Advance(g, me, f, k).after;
      g2.frees == g.frees + Free((!Unreferenced(g) && Unreferenced(g2)) ||
                                 (f.Deleting? && f.rpc.Drop? && k == Go && g.sources == {}))
  {
    if f.Deleting? {
      DeleteFrees(g, me, f, k);
    } else {
      InternalKeepsTokens(g, me, f, k);
      OthersFreeNothing(g, me, f, k);
    }
  }

  lemma DeleteFrees(g: Shared, me: Slot, f: Frame, k: Kind)
    requires GInv(g) && FrameOk(g, me, f) && f.Deleting? && !DeleteStep(g, me, f, k).Blocked?
    ensures var g2 := DeleteStep(g, me, f, k).after;
      g2.frees == g.frees + Free((!Unreferenced(g) && Unreferenced(g2)) ||
                                 (f.rpc.Drop? && k == Go && g.sources == {}))
  {
    assert CbOk(g, f.cb);
    UnreferencedMeans(g);
    UnreferencedMeans(DeleteStep(g, me, f, k).after);
    if f.rpc.UnlockDrop? || f.rpc.Drop? {
      FreeTests(Stopped(g), g.owner.Some?, Refs(g), |g.sources|);
    }
  }

  lemma OthersFreeNothing(g: Shared, me: Slot, f: Frame, k: Kind)
    requires FrameOk(g, me, f) && DrainOk(g) && !f.Deleting? && !Advance(g, me, f, k).Blocked?
    ensures var g2 := Advance(g, me, f, k).after; g2.frees == g.frees && !Unreferenced(g2)
  {
    if f.Adding? && f.apc.Publishing? { assert f.cb in Publicise(g, f).attached; }
  }

  /** When a step reaches 'delete this': exactly when it gives up the last reference, or when it gives up any
      token reference while no source is left. */
  lemma StepFrees(s: State, t: Tid, a: Action, s2: State)
    requires Inv(s) && Step(s, t, a, s2)
    ensures s2.g.frees == s.g.frees + Free((!Unreferenced(s.g) && Unreferenced(s2.g)) ||
                                           (DropsTokenRef(s, t, a) && s.g.sources == {}))
  {
    if a.Internal? {
      TopFacts(s, t);
      var top := |StackOf(s, t)| - 1;
      FrameFrees(s.g, Slot(t, top), StackOf(s, t)[top], a.kind);
    } else {
      UnreferencedMeans(s.g);
      UnreferencedMeans(s2.g);
      FreeTests(Stopped(s.g), s.g.owner.Some?, Refs(s.g), |s.g.sources|);
    }
  }

  /** The state is freed under a live reference exactly when a token reference other than the last is dropped
      and no source is left. */
  lemma PrematureFreeIff(s: State, t: Tid, a: Action, s2: State)
    requires Inv(s) && Step(s, t, a, s2)
    ensures s2.g.frees > s.g.frees && !Unreferenced(s2.g) <==> !Careful(s, t, a)
  {
    StepFrees(s, t, a, s2);
    UnreferencedMeans(s2.g);
    if a.Internal? {
      TopFacts(s, t);
      var f := StackOf(s, t)[|StackOf(s, t)| - 1];
      if f.Deleting? { assert CbOk(s.g, f.cb); }
    }
  }

  /** In a run whose drops are careful, the state has been freed once if nothing refers to it, and not at all
      otherwise. */
  lemma {:induction false} FreedExactlyOnce(states: seq<State>, tids: seq<Tid>, acts: seq<Action>, i: nat)
    requires Run(states, tids, acts) && i < |states|
    requires forall j | 0 <= j < i :: Careful(states[j], tids[j], acts[j])
    ensures states[i].g.frees == Free(Unreferenced(states[i].g))
  {
    if i > 0 {
      FreedExactlyOnce(states, tids, acts, i - 1);
      var s, t, a := states[i - 1], tids[i - 1], acts[i - 1];
      assert StepAt(states, tids, acts, i - 1);
      RunKeeps(states, tids, acts, i - 1);
      StepFrees(s, t, a, states[i]);
      if Unreferenced(s.g) { NothingAfterFree(s); }
      PrematureFreeIff(s, t, a, states[i]);
    }
  }

  /** Once nothing refers to the state no thread can take a step on it, so it is never used after being freed. */
  lemma NothingAfterFree(s: State)
    requires Inv(s) && Unreferenced(s.g)
    ensures forall t, a, s2 :: !Step(s, t, a, s2)
  {
    forall t ensures StackOf(s, t) == [] {
      if StackOf(s, t) != [] { FramePins(s, t); }
    }
  }

  // A call in progress keeps a reference alive.
  lemma FramePins(s: State, t: Tid)
    requires Inv(s) && StackOf(s, t) != []
    ensures !Unreferenced(s.g)
  {
    TopFacts(s, t);
    var f := StackOf(s, t)[|StackOf(s, t)| - 1];
    if f.Deleting? { assert CbOk(s.g, f.cb); }
  }

  /** The jthread discipline: a source outlives all tokens and attached callbacks. */
  predicate SourceOutlives(s: State, a: Action) {
    a.DropSource? && s.g.sources == {a.src} ==> s.g.tokens == {} && s.g.attached == {}
  }

  lemma DisciplineStep(s: State, t: Tid, a: Action, s2: State)
    requires Inv(s) && Step(s, t, a, s2) && SourceOutlives(s, a)
    requires s.g.sources == {} ==> Unreferenced(s.g)
    ensures s2.g.sources == {} ==> Unreferenced(s2.g)
    ensures Careful(s, t, a)
    ensures Unreferenced(s2.g) && !Unreferenced(s.g) ==> a.DropSource? && s.g.sources == {a.src}
  {
    if Unreferenced(s.g) { NothingAfterFree(s); }
    if a.Internal? {
      var top := |StackOf(s, t)| - 1;
      TopFacts(s, t);
      InternalKeepsTokens(s.g, Slot(t, top), StackOf(s, t)[top], a.kind);
    }
  }

  /** Under that discipline the state is freed exactly once, by the last source drop. */
  lemma {:induction false} FreedByLastSource(states: seq<State>, tids: seq<Tid>, acts: seq<Action>, i: nat)
    requires Run(states, tids, acts) && i < |states|
    requires forall j | 0 <= j < |acts| :: SourceOutlives(states[j], acts[j])
    ensures states[i].g.sources == {} ==> Unreferenced(states[i].g)
    ensures states[i].g.frees == Free(states[i].g.sources == {})
    ensures forall j | 0 <= j < i :: Careful(states[j], tids[j], acts[j])
    ensures i > 0 && states[i].g.frees > states[i - 1].g.frees ==>
              acts[i - 1].DropSource? && states[i - 1].g.sources == {acts[i - 1].src}
  {
    if i > 0 {
      FreedByLastSource(states, tids, acts, i - 1);
      RunKeeps(states, tids, acts, i - 1);
      assert StepAt(states, tids, acts, i - 1);
      DisciplineStep(states[i - 1], tids[i - 1], acts[i - 1], states[i]);
    }
    FreedExactlyOnce(states, tids, acts, i);
  }

  /** Without it: two tokens outlive the only source; the first token drop frees the state under the second
      token, and the second drop frees it again. */
  lemma TokensWithoutSource() returns (states: seq<State>, tids: seq<Tid>, acts: seq<Action>)
    ensures Run(states, tids, acts)
    ensures |states| == 6 && states[4].g.frees == 1 && states[4].g.tokens == {1} && states[5].g.frees == 2
  {
    var s1 := ClientStep(INITIAL, 0, CopyToken(0));
    var s2 := ClientStep(s1, 0, CopyToken(1));
    var s3 := ClientStep(s2, 0, DropSource(0));
    var s4 := ClientStep(s3, 0, DropToken(0));
    var s5 := ClientStep(s4, 0, DropToken(1));
    states := [INITIAL, s1, s2, s3, s4, s5];
    tids := [0, 0, 0, 0, 0];
    acts := [CopyToken(0), CopyToken(1), DropSource(0), DropToken(0), DropToken(1)];
    assert {0} + {1} - {0} == {1};
    assert |s1.g.tokens| == 1 && |s2.g.tokens| == 2 && |s4.g.tokens| == 1;
  }
}
