/** From single steps to whole states and whole runs of the stop-state protocol. */
module StopRuns {
  import opened StopWord
  import opened Wrappers
  import opened StopProtocol
  import opened StopInvariant
  import opened StopSteps

  // -- The word --

  lemma AdvanceKeepsWord(g: Shared, me: Slot, f: Frame, k: Kind)
    requires GInv(g) && FrameOk(g, me, f)
    requires var o := Advance(g, me, f, k); !o.Blocked? && InRange(Refs(o.after), |o.after.sources|)
    ensures WordOk(Advance(g, me, f, k).after)
  {
    match f
    case Asking(_, _) => AskKeepsWord(g, me, f, k);
    case Draining(_, _) => DrainKeepsWord(g, me, f, k);
    case Adding(_, _, _, _) => AddKeepsWord(g, me, f, k);
    case Deleting(_, _) => DeleteKeepsWord(g, me, f, k);
  }

  lemma AskKeepsWord(g: Shared, me: Slot, f: Frame, k: Kind)
    requires GInv(g) && FrameOk(g, me, f) && f.Asking? && !AskStep(g, me, f, k).Blocked?
    ensures WordOk(AskStep(g, me, f, k).after)
  {
    if k == Swap {
      WordFacts(g);
      UpdatesActOnFields(false, Refs(g), |g.sources|);
    }
  }

  lemma DrainKeepsWord(g: Shared, me: Slot, f: Frame, k: Kind)
    requires GInv(g) && FrameOk(g, me, f) && f.Draining? && !DrainStep(g, me, f, k).Blocked?
    ensures WordOk(DrainStep(g, me, f, k).after)
  {
    if f.dpc.Relock? && k == Swap {
      LockKeepsWord(g);
    } else if DrainLocks(f.dpc) {
      UnlockKeepsWord(g);
    }
  }

  lemma AddKeepsWord(g: Shared, me: Slot, f: Frame, k: Kind)
    requires GInv(g) && FrameOk(g, me, f) && f.Adding?
    requires var o := AddStep(g, me, f, k); !o.Blocked? && InRange(Refs(o.after), |o.after.sources|)
    ensures WordOk(AddStep(g, me, f, k).after)
  {
    if f.apc.Check? && k == Swap {
      LockKeepsWord(g);
    } else if f.apc.Publishing? {
      assert CbOk(g, f.cb);
      UpdatesActOnFields(Stopped(g), Refs(g), |g.sources|);
    }
  }

  lemma DeleteKeepsWord(g: Shared, me: Slot, f: Frame, k: Kind)
    requires GInv(g) && FrameOk(g, me, f) && f.Deleting? && !DeleteStep(g, me, f, k).Blocked?
    ensures WordOk(DeleteStep(g, me, f, k).after)
  {
    assert CbOk(g, f.cb);
    if f.rpc.Lock? && k == Swap {
      LockKeepsWord(g);
    } else if f.rpc.Unlock? {
      UnlockKeepsWord(g);
    } else if f.rpc.UnlockDrop? {
      UpdatesActOnFields(Stopped(g), Refs(g), |g.sources|);
    } else if f.rpc.Drop? {
      CountsActOnFields(Stopped(g), g.owner.Some?, Refs(g), |g.sources|);
    }
  }

  // -- One step of any frame --

  // What the rest of the stack says about a frame that takes a step.
  ghost predicate StackFacts(g: Shared, me: Slot, f: Frame) {
    && (forall cb | cb in g.remover && g.remover[cb].tid == me.tid :: g.remover[cb].at <= me.at)
    && (f.Deleting? && g.drain.Active? && g.drain.slot.tid == me.tid ==>
          g.drain.slot.at < me.at && g.drain.pc.On? && g.drain.pc.stage.Running?)
  }

  lemma AdvanceKeeps(g: Shared, me: Slot, f: Frame, k: Kind)
    requires GInv(g) && At(g, me, f) && StackFacts(g, me, f)
    ensures Kept(g, me, Advance(g, me, f, k))
  {
    if Advance(g, me, f, k).Blocked? { return; }
    match f
    case Asking(_, _) =>
      if k == Read { AskReadKeeps(g, me, f); } else if k == Swap { AskWinKeeps(g, me, f); } else { SameKeeps(g, me); }
    case Draining(_, _) => DrainKeeps(g, me, f, k);
    case Adding(_, _, _, _) => AddKeeps(g, me, f, k);
    case Deleting(_, _) => DeleteKeeps(g, me, f, k);
  }

  lemma SameKeeps(g: Shared, me: Slot)
    requires Logic(g) && me.at >= 0
    ensures Guarantee(g, g, me)
  {
    forall cb ensures CbMoves(g, g, me, cb) { assert CbOk(g, cb); }
  }

  lemma DrainKeeps(g: Shared, me: Slot, f: Frame, k: Kind)
    requires GInv(g) && At(g, me, f) && StackFacts(g, me, f) && f.Draining? && !DrainStep(g, me, f, k).Blocked?
    ensures Kept(g, me, DrainStep(g, me, f, k))
  {
    match f.dpc
    case Publish => PublishKeeps(g, me, f);
    case Head => if g.list == [] { HeadEmptyKeeps(g, me, f); } else { HeadKeeps(g, me, f); }
    case On(cb, more, stage) =>
      match stage {
       case Unlocking => UnlockingKeeps(g, me, f);
       case Arming => ArmingKeeps(g, me, f);
       case Calling => CallingKeeps(g, me, f);
       case Running => RunningKeeps(g, me, f);
       case Returned => ReturnedKeeps(g, me, f);
       case Disarming => DisarmingKeeps(g, me, f);
       case Finishing => FinishingKeeps(g, me, f);
      }
    case Next(_) => NextKeeps(g, me, f);
    case Relock(_) => if k == Read { RelockReadKeeps(g, me, f); } else { RelockKeeps(g, me, f); }
    case Last => LastKeeps(g, me, f);
  }

  lemma AddKeeps(g: Shared, me: Slot, f: Frame, k: Kind)
    requires GInv(g) && At(g, me, f) && f.Adding? && !AddStep(g, me, f, k).Blocked?
    ensures Kept(g, me, AddStep(g, me, f, k))
  {
    match f.apc
    case Look => LookKeeps(g, me, f);
    case Check(seen) =>
      if IsStopRequested(seen) { CheckRunKeeps(g, me, f); }
      else if !IsStopRequestable(seen) { CheckRefuseKeeps(g, me, f); }
      else if k == Read { CheckReadKeeps(g, me, f); }
      else { CheckLockKeeps(g, me, f); }
    case Inline => InlineKeeps(g, me, f);
    case Push => PushKeeps(g, me, f);
    case Publishing => PublishingKeeps(g, me, f);
  }

  lemma DeleteKeeps(g: Shared, me: Slot, f: Frame, k: Kind)
    requires GInv(g) && At(g, me, f) && StackFacts(g, me, f) && f.Deleting? && !DeleteStep(g, me, f, k).Blocked?
    ensures Kept(g, me, DeleteStep(g, me, f, k))
  {
    match f.rpc
    case Lock(_) => if k == Read { LockReadKeeps(g, me, f); } else { LockKeeps(g, me, f); }
    case Body => if f.cb in g.list { BodyUnlinkKeeps(g, me, f); } else { BodyLeaveKeeps(g, me, f); }
    case UnlockDrop => UnlockDropKeeps(g, me, f);
    case Unlock => UnlockKeeps(g, me, f);
    case Who => WhoKeeps(g, me, f);
    case Self => SelfKeeps(g, me, f);
    case Wait => WaitKeeps(g, me, f);
    case Drop => if g.phase[f.cb].Ran? { DropRanKeeps(g, me, f); } else { DropInsideKeeps(g, me, f); }
  }

  // -- Whole states --

  // What the invariant says about a position of a stack: about the frame there, or that there is none.
  ghost predicate PlaceOk(s: State, t: Tid, i: nat) {
    var stack := StackOf(s, t);
    if i < |stack| then
      && FrameOk(s.g, Slot(t, i), stack[i])
      && SlotOk(s.g, Slot(t, i), stack[i])
      && (i < |stack| - 1 ==> RunsClientCode(stack[i]))
    else SlotFree(s.g, Slot(t, i))
  }

  // A token that is being moved into a callback is used by no other call.
  ghost predicate Exclusive(s: State, t: Tid, i: nat, u: Tid, j: nat) {
    var mine, yours := StackOf(s, t), StackOf(s, u);
    i < |mine| && j < |yours| && (t, i) != (u, j) && mine[i].Adding? && mine[i].moves ==>
      !UsesTok(yours[j], mine[i].tok)
  }

  ghost predicate Inv(s: State) {
    && GInv(s.g)
    && (forall t, i: nat :: PlaceOk(s, t, i))
    && (forall t, i: nat, u, j: nat :: Exclusive(s, t, i, u, j))
  }

  lemma SlotStable(g: Shared, g2: Shared, me: Slot, you: Slot, f: Frame)
    requires Guarantee(g, g2, me) && you != me
    ensures SlotOk(g, you, f) ==> SlotOk(g2, you, f)
    ensures SlotFree(g, you) ==> SlotFree(g2, you)
  {
    forall cb ensures cb in g2.remover && g2.remover[cb] == you ==> cb in g.remover && g.remover[cb] == you
    {
      assert CbMoves(g, g2, me, cb);
    }
    forall cb ensures cb in g2.phase && Builder(g2.phase[cb]) == Some(you) ==>
                      cb in g.phase && Builder(g.phase[cb]) == Some(you)
    {
      assert CbMoves(g, g2, me, cb);
    }
  }

  lemma InitialOk()
    ensures Inv(INITIAL) && CountsFit(INITIAL)
  {
    FieldsReadBack(false, false, 0, 1);
    assert |INITIAL.g.sources| == 1;
    forall cb ensures CbOk(INITIAL.g, cb) {}
    forall t, i: nat ensures PlaceOk(INITIAL, t, i) {}
  }

  // The frame on top of a stack may step: the rest of its stack waits for it.
  lemma TopFacts(s: State, t: Tid)
    requires Inv(s) && StackOf(s, t) != []
    ensures var top := |StackOf(s, t)| - 1; var f := StackOf(s, t)[top];
      At(s.g, Slot(t, top), f) && StackFacts(s.g, Slot(t, top), f)
  {
    var top := |StackOf(s, t)| - 1;
    var g := s.g;
    assert PlaceOk(s, t, top);
    forall cb | cb in g.remover && g.remover[cb].tid == t ensures g.remover[cb].at <= top {
      assert PlaceOk(s, t, g.remover[cb].at);
    }
    if g.drain.Active? && g.drain.slot.tid == t {
      assert PlaceOk(s, t, g.drain.slot.at);
    }
  }

  // A place other than the stepping one keeps what the invariant says about it.
  lemma PlaceStable(s: State, s2: State, me: Slot, u: Tid, j: nat)
    requires GInv(s.g) && PlaceOk(s, u, j) && Guarantee(s.g, s2.g, me) && Slot(u, j) != me
    requires u == me.tid ==> me.at >= |StackOf(s, u)| - 1
    requires j < |StackOf(s, u)| <==> j < |StackOf(s2, u)|
    requires j < |StackOf(s, u)| ==>
      var f := StackOf(s, u)[j];
      && StackOf(s2, u)[j] == f
      && (j < |StackOf(s2, u)| - 1 ==> RunsClientCode(f))
      && (u == me.tid ==> RunsClientCode(f))
      && (f.Asking? ==> f.src in s2.g.sources)
      && (f.Adding? ==> f.tok in s2.g.tokens)
    ensures PlaceOk(s2, u, j)
  {
    if j < |StackOf(s, u)| {
      SlotStable(s.g, s2.g, me, Slot(u, j), StackOf(s, u)[j]);
      Stable(s.g, s2.g, me, Slot(u, j), StackOf(s, u)[j]);
    } else {
      SlotStable(s.g, s2.g, me, Slot(u, j), Asking(0, None));
    }
  }

  lemma InternalKeeps(s: State, t: Tid, k: Kind, s2: State)
    requires Inv(s) && Step(s, t, Internal(k), s2) && CountsFit(s2)
    ensures Inv(s2)
    ensures Guarantee(s.g, s2.g, Slot(t, |StackOf(s, t)| - 1))
  {
    var stack := StackOf(s, t);
    var top := |stack| - 1;
    var me := Slot(t, top);
    TopFacts(s, t);
    AdvanceKeeps(s.g, me, stack[top], k);
    AdvanceKeepsWord(s.g, me, stack[top], k);
    InternalKeepsTokens(s.g, me, stack[top], k);
    forall u, j: nat ensures PlaceOk(s2, u, j) {
      assert PlaceOk(s, u, j);
      if Slot(u, j) != me {
        assert Exclusive(s, t, top, u, j);
        PlaceStable(s, s2, me, u, j);
      }
    }
    InternalKeepsExclusive(s, t, k, s2);
  }

  lemma InternalKeepsExclusive(s: State, t: Tid, k: Kind, s2: State)
    requires Inv(s) && Step(s, t, Internal(k), s2)
    ensures forall u, i: nat, v, j: nat :: Exclusive(s2, u, i, v, j)
  {
    var stack := StackOf(s, t);
    InternalKeepsTokens(s.g, Slot(t, |stack| - 1), stack[|stack| - 1], k);
    forall u, i: nat, v, j: nat ensures Exclusive(s2, u, i, v, j) {
      assert Exclusive(s, u, i, v, j);
      assert (u != t ==> StackOf(s2, u) == StackOf(s, u)) && (v != t ==> StackOf(s2, v) == StackOf(s, v));
    }
  }

  lemma InternalKeepsTokens(g: Shared, me: Slot, f: Frame, k: Kind)
    requires !Advance(g, me, f, k).Blocked?
    ensures var g2 := Advance(g, me, f, k).after;
      && g2.sources == g.sources
      && (forall tok | tok in g.tokens && tok !in g2.tokens :: MovesTok(f, tok))
    ensures var o := Advance(g, me, f, k);
      o.Goes? && f.Adding? ==> o.frame.Adding? && o.frame.tok == f.tok && o.frame.moves == f.moves
    ensures var o := Advance(g, me, f, k); o.Goes? && !f.Adding? ==> !o.frame.Adding?
  {
  }

  // -- Client steps --

  lemma ClientKeepsWord(s: State, t: Tid, a: Action)
    requires WordOk(s.g) && !a.Internal? && ClientMay(s, a) && CountsFit(ClientStep(s, t, a))
    ensures WordOk(ClientStep(s, t, a).g)
  {
    var g := s.g;
    if a.CopyToken? || a.DropToken? {
      CountsActOnFields(Stopped(g), g.owner.Some?, Refs(g), |g.sources|);
      if a.CopyToken? {
        assert |g.tokens + {a.tok}| == |g.tokens| + 1;
      } else {
        assert |g.tokens - {a.tok}| == |g.tokens| - 1;
      }
    } else if a.CopySource? || a.DropSource? {
      CountsActOnFields(Stopped(g), g.owner.Some?, Refs(g), |g.sources|);
      if a.CopySource? {
        assert |g.sources + {a.src}| == |g.sources| + 1;
      } else {
        assert |g.sources - {a.src}| == |g.sources| - 1;
      }
    }
  }

  lemma ClientKeepsLogic(s: State, t: Tid, a: Action)
    requires Inv(s) && !a.Internal? && ClientMay(s, a)
    ensures var g2 := ClientStep(s, t, a).g; Logic(g2) && Guarantee(s.g, g2, Slot(t, |StackOf(s, t)|))
  {
    if a.CallTryAdd? {
      TryAddCallKeeps(s, t, a);
    } else if a.CallRemove? {
      RemoveCallKeeps(s, t, a);
    } else {
      DrainPinsSource(s, a);
      CountingKeeps(s.g, ClientStep(s, t, a).g, Slot(t, |StackOf(s, t)|));
    }
  }

  // The source of the winning __request_stop is not dropped while that call runs.
  lemma DrainPinsSource(s: State, a: Action)
    requires Inv(s) && !a.Internal? && ClientMay(s, a)
    ensures s.g.drain.Active? ==> s.g.drain.src in s.g.sources && !(a.DropSource? && a.src == s.g.drain.src)
  {
    if s.g.drain.Active? {
      var slot := s.g.drain.slot;
      assert PlaceOk(s, slot.tid, slot.at);
      ClientKeepsPins(s, a, slot.tid, slot.at);
    }
  }

  lemma TryAddCallKeeps(s: State, t: Tid, a: Action)
    requires Logic(s.g) && a.CallTryAdd? && ClientMay(s, a)
    ensures var g2 := ClientStep(s, t, a).g; Logic(g2) && Guarantee(s.g, g2, Slot(t, |StackOf(s, t)|))
  {
    var g2 := ClientStep(s, t, a).g;
    assert CbOk(s.g, a.cb);
    forall cb ensures CbOk(g2, cb) && CbMoves(s.g, g2, Slot(t, |StackOf(s, t)|), cb) {
      assert CbOk(s.g, cb);
    }
  }

  lemma RemoveCallKeeps(s: State, t: Tid, a: Action)
    requires Logic(s.g) && a.CallRemove? && ClientMay(s, a)
    ensures var g2 := ClientStep(s, t, a).g; Logic(g2) && Guarantee(s.g, g2, Slot(t, |StackOf(s, t)|))
  {
    var g2 := ClientStep(s, t, a).g;
    assert CbOk(s.g, a.cb);
    forall cb ensures CbOk(g2, cb) && CbMoves(s.g, g2, Slot(t, |StackOf(s, t)|), cb) {
      assert CbOk(s.g, cb);
    }
  }

  // Copying and dropping tokens and sources.
  lemma CountingKeeps(g: Shared, g2: Shared, me: Slot)
    requires Logic(g)
    requires g2 == g.(word := g2.word, tokens := g2.tokens, sources := g2.sources, frees := g2.frees)
    requires g.drain.Active? ==> g.drain.src in g2.sources
    requires g.sources == {} ==> g2.sources == {}
    ensures Logic(g2) && Guarantee(g, g2, me)
  {
    forall cb ensures CbOk(g2, cb) && CbMoves(g, g2, me, cb) {
      assert CbOk(g, cb);
    }
  }

  lemma ClientKeeps(s: State, t: Tid, a: Action, s2: State)
    requires Inv(s) && !a.Internal? && Step(s, t, a, s2) && CountsFit(s2)
    ensures Inv(s2)
    ensures Guarantee(s.g, s2.g, Slot(t, |StackOf(s, t)|))
  {
    var me := Slot(t, |StackOf(s, t)|);
    ClientKeepsWord(s, t, a);
    ClientKeepsLogic(s, t, a);
    forall u, j: nat ensures PlaceOk(s2, u, j) {
      assert PlaceOk(s, u, j);
      if Slot(u, j) == me {
        ClientKeepsMine(s, t, a, s2);
      } else if j < |StackOf(s, u)| {
        ClientKeepsPins(s, a, u, j);
        PlaceStable(s, s2, me, u, j);
      } else {
        PlaceStable(s, s2, me, u, j);
      }
    }
    forall u, i: nat, v, j: nat ensures Exclusive(s2, u, i, v, j) {
      ClientKeepsExclusive(s, t, a, s2, u, i, v, j);
    }
  }

  // The new call's own frame, or the still free place on top of the stack.
  lemma ClientKeepsMine(s: State, t: Tid, a: Action, s2: State)
    requires Inv(s) && !a.Internal? && Step(s, t, a, s2)
    ensures PlaceOk(s2, t, |StackOf(s, t)|)
  {
    assert PlaceOk(s, t, |StackOf(s, t)|);
    if a.CallRemove? { assert CbOk(s.g, a.cb); }
  }

  // Objects that calls in progress use are not dropped.
  lemma ClientKeepsPins(s: State, a: Action, u: Tid, j: nat)
    requires !a.Internal? && ClientMay(s, a) && j < |StackOf(s, u)|
    ensures var f := StackOf(s, u)[j];
      && !(a.DropSource? && UsesSrc(f, a.src)) && !(a.DropToken? && UsesTok(f, a.tok))
      && !(a.CallTryAdd? && MovesTok(f, a.tok)) && !(a.CallTryAdd? && a.moves && UsesTok(f, a.tok))
  {
    assert StackOf(s, u)[j] == s.stacks[u][j];
  }

  lemma ClientKeepsExclusive(s: State, t: Tid, a: Action, s2: State, u: Tid, i: nat, v: Tid, j: nat)
    requires Inv(s) && !a.Internal? && Step(s, t, a, s2)
    ensures Exclusive(s2, u, i, v, j)
  {
    assert Exclusive(s, u, i, v, j);
    if i < |StackOf(s, u)| { ClientKeepsPins(s, a, u, i); }
    if j < |StackOf(s, v)| { ClientKeepsPins(s, a, v, j); }
  }
}
