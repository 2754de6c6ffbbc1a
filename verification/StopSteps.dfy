/** Every step of the protocol keeps the invariant. */
module StopSteps {
  import opened StopWord
  import opened Wrappers
  import opened StopProtocol
  import opened StopInvariant

  ghost predicate Kept(g: Shared, me: Slot, o: Outcome) {
    match o
    case Blocked => true
    case Goes(g2, f2) => At(g2, me, f2) && Guarantee(g, g2, me)
    case Returns(g2) => Logic(g2) && SlotFree(g2, me) && Guarantee(g, g2, me)
  }

  // The rest of the word's facts, at the current state.
  lemma WordFacts(g: Shared)
    requires WordOk(g)
    ensures g.word < TWO_TO_64 && IsStopRequested(g.word) == Stopped(g) && IsLocked(g.word) == g.owner.Some?
    ensures g.word >= SOURCE_REF <==> g.sources != {}
  {
    FieldsReadBack(Stopped(g), g.owner.Some?, Refs(g), |g.sources|);
  }

  lemma LockKeepsWord(g: Shared)
    requires WordOk(g) && !IsLocked(g.word)
    ensures g.owner == None
    ensures OrLocked(g.word) == Pack(Stopped(g), true, Refs(g), |g.sources|)
  {
    WordFacts(g);
    UpdatesActOnFields(Stopped(g), Refs(g), |g.sources|);
  }

  lemma UnlockKeepsWord(g: Shared)
    requires WordOk(g) && g.owner.Some?
    ensures FetchSub(g.word, LOCKED_FLAG) == Pack(Stopped(g), false, Refs(g), |g.sources|)
  {
    UpdatesActOnFields(Stopped(g), Refs(g), |g.sources|);
  }

  lemma Executed(execs: multiset<(Cb, Tid)>, c: Cb, t: Tid)
    ensures var execs2 := execs + multiset{(c, t)};
      && (NeverRan(execs, c) ==> RanOnce(execs2, c, t))
      && (forall cb | cb != c :: NeverRan(execs, cb) ==> NeverRan(execs2, cb))
      && (forall cb, r | cb != c :: RanOnce(execs, cb, r) ==> RanOnce(execs2, cb, r))
  {
    var execs2 := execs + multiset{(c, t)};
    assert NeverRan(execs, c) ==> execs[(c, t)] == 0;
    forall cb, r | cb != c ensures execs2[(cb, r)] == execs[(cb, r)] {}
  }

  // What is known when the frame at slot me takes a step.
  ghost predicate At(g: Shared, me: Slot, f: Frame) { Logic(g) && FrameOk(g, me, f) && SlotOk(g, me, f) }

  // -- __request_stop --

  lemma UnlockingKeeps(g: Shared, me: Slot, f: Frame)
    requires At(g, me, f) && f.Draining? && f.dpc.On? && f.dpc.stage.Unlocking?
    ensures Kept(g, me, DrainStep(g, me, f, Go))
  {
    assert CbOk(g, f.dpc.cb);
    var g2 := DrainStep(g, me, f, Go).after;
    forall cb ensures CbOk(g2, cb) && CbMoves(g, g2, me, cb) {
      assert CbOk(g, cb);
    }
  }

  lemma ArmingKeeps(g: Shared, me: Slot, f: Frame)
    requires At(g, me, f) && f.Draining? && f.dpc.On? && f.dpc.stage.Arming?
    ensures Kept(g, me, DrainStep(g, me, f, Go))
  {
    assert CbOk(g, f.dpc.cb);
    var g2 := DrainStep(g, me, f, Go).after;
    forall cb ensures CbOk(g2, cb) && CbMoves(g, g2, me, cb) {
      assert CbOk(g, cb);
    }
  }

  lemma CallingKeeps(g: Shared, me: Slot, f: Frame)
    requires At(g, me, f) && f.Draining? && f.dpc.On? && f.dpc.stage.Calling?
    ensures Kept(g, me, DrainStep(g, me, f, Go))
  {
    assert CbOk(g, f.dpc.cb);
    var g2 := DrainStep(g, me, f, Go).after;
    Executed(g.execs, f.dpc.cb, me.tid);
    forall cb ensures CbOk(g2, cb) && CbMoves(g, g2, me, cb) {
      assert CbOk(g, cb);
    }
  }

  lemma RunningKeeps(g: Shared, me: Slot, f: Frame)
    requires At(g, me, f) && f.Draining? && f.dpc.On? && f.dpc.stage.Running?
    requires f.dpc.cb in g.remover ==> !(g.remover[f.dpc.cb].tid == me.tid && g.remover[f.dpc.cb].at > me.at)
    ensures Kept(g, me, DrainStep(g, me, f, Back))
  {
    assert CbOk(g, f.dpc.cb);
    var g2 := DrainStep(g, me, f, Back).after;
    forall cb ensures CbOk(g2, cb) && CbMoves(g, g2, me, cb) {
      assert CbOk(g, cb);
    }
  }

  lemma ReturnedKeeps(g: Shared, me: Slot, f: Frame)
    requires At(g, me, f) && f.Draining? && f.dpc.On? && f.dpc.stage.Returned?
    ensures Kept(g, me, DrainStep(g, me, f, Go))
  {
    assert CbOk(g, f.dpc.cb);
    var g2 := DrainStep(g, me, f, Go).after;
    forall cb ensures CbOk(g2, cb) && CbMoves(g, g2, me, cb) {
      assert CbOk(g, cb);
    }
  }

  lemma DisarmingKeeps(g: Shared, me: Slot, f: Frame)
    requires At(g, me, f) && f.Draining? && f.dpc.On? && f.dpc.stage.Disarming?
    ensures Kept(g, me, DrainStep(g, me, f, Go))
  {
    assert CbOk(g, f.dpc.cb);
    var g2 := DrainStep(g, me, f, Go).after;
    forall cb ensures CbOk(g2, cb) && CbMoves(g, g2, me, cb) {
      assert CbOk(g, cb);
    }
  }

  lemma FinishingKeeps(g: Shared, me: Slot, f: Frame)
    requires At(g, me, f) && f.Draining? && f.dpc.On? && f.dpc.stage.Finishing?
    ensures Kept(g, me, DrainStep(g, me, f, Go))
  {
    assert CbOk(g, f.dpc.cb);
    var g2 := DrainStep(g, me, f, Go).after;
    forall cb ensures CbOk(g2, cb) && CbMoves(g, g2, me, cb) {
      assert CbOk(g, cb);
    }
  }

  lemma PublishKeeps(g: Shared, me: Slot, f: Frame)
    requires At(g, me, f) && f.Draining? && f.dpc.Publish?
    ensures Kept(g, me, DrainStep(g, me, f, Go))
  {
    var g2 := DrainStep(g, me, f, Go).after;
    forall cb ensures CbOk(g2, cb) && CbMoves(g, g2, me, cb) {
      assert CbOk(g, cb);
    }
  }

  lemma HeadEmptyKeeps(g: Shared, me: Slot, f: Frame)
    requires At(g, me, f) && f.Draining? && f.dpc.Head?
    requires g.list == []
    ensures Kept(g, me, DrainStep(g, me, f, Go))
  {
    var g2 := DrainStep(g, me, f, Go).after;
    forall cb ensures CbOk(g2, cb) && CbMoves(g, g2, me, cb) {
      assert CbOk(g, cb);
    }
  }

  lemma HeadKeeps(g: Shared, me: Slot, f: Frame)
    requires At(g, me, f) && f.Draining? && f.dpc.Head?
    requires g.list != []
    ensures Kept(g, me, DrainStep(g, me, f, Go))
  {
    assert CbOk(g, g.list[0]);
    TailOf(g.list);
    var g2 := DrainStep(g, me, f, Go).after;
    forall cb ensures CbOk(g2, cb) && CbMoves(g, g2, me, cb) {
      assert CbOk(g, cb);
    }
  }

  lemma NextKeeps(g: Shared, me: Slot, f: Frame)
    requires At(g, me, f) && f.Draining? && f.dpc.Next?
    ensures Kept(g, me, DrainStep(g, me, f, Go))
  {
    var g2 := DrainStep(g, me, f, Go).after;
    forall cb ensures CbOk(g2, cb) && CbMoves(g, g2, me, cb) {
      assert CbOk(g, cb);
    }
  }

  lemma RelockReadKeeps(g: Shared, me: Slot, f: Frame)
    requires At(g, me, f) && f.Draining? && f.dpc.Relock?
    ensures Kept(g, me, DrainStep(g, me, f, Read))
  {
    var g2 := DrainStep(g, me, f, Read).after;
    forall cb ensures CbOk(g2, cb) && CbMoves(g, g2, me, cb) {
      assert CbOk(g, cb);
    }
  }

  lemma RelockKeeps(g: Shared, me: Slot, f: Frame)
    requires At(g, me, f) && f.Draining? && f.dpc.Relock?
    requires WordOk(g) && CanLock(g, f.dpc.lockWord)
    ensures Kept(g, me, DrainStep(g, me, f, Swap))
  {
    LockKeepsWord(g);
    var g2 := DrainStep(g, me, f, Swap).after;
    forall cb ensures CbOk(g2, cb) && CbMoves(g, g2, me, cb) {
      assert CbOk(g, cb);
    }
  }

  lemma LastKeeps(g: Shared, me: Slot, f: Frame)
    requires At(g, me, f) && f.Draining? && f.dpc.Last?
    ensures Kept(g, me, DrainStep(g, me, f, Go))
  {
    var g2 := DrainStep(g, me, f, Go).after;
    forall cb ensures CbOk(g2, cb) && CbMoves(g, g2, me, cb) {
      assert CbOk(g, cb);
    }
  }

  lemma AskReadKeeps(g: Shared, me: Slot, f: Frame)
    requires At(g, me, f) && f.Asking?
    requires WordOk(g)
    requires !AskStep(g, me, f, Read).Blocked?
    ensures Kept(g, me, AskStep(g, me, f, Read))
  {
    WordFacts(g);
    var g2 := AskStep(g, me, f, Read).after;
    forall cb ensures CbOk(g2, cb) && CbMoves(g, g2, me, cb) {
      assert CbOk(g, cb);
    }
  }

  lemma AskWinKeeps(g: Shared, me: Slot, f: Frame)
    requires At(g, me, f) && f.Asking?
    requires WordOk(g)
    requires !AskStep(g, me, f, Swap).Blocked?
    ensures Kept(g, me, AskStep(g, me, f, Swap))
  {
    WordFacts(g);
    var g2 := AskStep(g, me, f, Swap).after;
    forall cb ensures CbOk(g2, cb) && CbMoves(g, g2, me, cb) {
      assert CbOk(g, cb);
    }
  }

  // -- __try_add_callback --

  lemma LookKeeps(g: Shared, me: Slot, f: Frame)
    requires At(g, me, f) && f.Adding? && f.apc.Look?
    requires WordOk(g)
    ensures Kept(g, me, AddStep(g, me, f, Read))
  {
    assert CbOk(g, f.cb);
    WordFacts(g);
    var g2 := AddStep(g, me, f, Read).after;
    forall cb ensures CbOk(g2, cb) && CbMoves(g, g2, me, cb) {
      assert CbOk(g, cb);
    }
  }

  lemma CheckReadKeeps(g: Shared, me: Slot, f: Frame)
    requires At(g, me, f) && f.Adding? && f.apc.Check?
    requires WordOk(g)
    requires !AddStep(g, me, f, Read).Blocked?
    ensures Kept(g, me, AddStep(g, me, f, Read))
  {
    assert CbOk(g, f.cb);
    WordFacts(g);
    var g2 := AddStep(g, me, f, Read).after;
    forall cb ensures CbOk(g2, cb) && CbMoves(g, g2, me, cb) {
      assert CbOk(g, cb);
    }
  }

  // A registration that sees the stop runs its callback: what this means for each callback.
  lemma CheckRunCb(g: Shared, me: Slot, f: Frame, cb: Cb)
    requires Logic(g) && FrameOk(g, me, f) && f.Adding? && f.apc.Check? && IsStopRequested(f.apc.seen)
    ensures CbOk(AddStep(g, me, f, Go).after, cb)
  {
    assert CbOk(g, cb) && CbOk(g, f.cb);
    Executed(g.execs, f.cb, me.tid);
  }

  lemma CheckRunMoves(g: Shared, me: Slot, f: Frame, cb: Cb)
    requires Logic(g) && FrameOk(g, me, f) && f.Adding? && f.apc.Check? && IsStopRequested(f.apc.seen)
    ensures CbMoves(g, AddStep(g, me, f, Go).after, me, cb)
  {
    assert CbOk(g, cb) && CbOk(g, f.cb);
  }

  lemma CheckRunKeeps(g: Shared, me: Slot, f: Frame)
    requires At(g, me, f) && f.Adding? && f.apc.Check? && IsStopRequested(f.apc.seen)
    ensures Kept(g, me, AddStep(g, me, f, Go))
  {
    var g2 := AddStep(g, me, f, Go).after;
    forall cb ensures CbOk(g2, cb) && CbMoves(g, g2, me, cb) {
      CheckRunCb(g, me, f, cb);
      CheckRunMoves(g, me, f, cb);
    }
  }

  lemma CheckRefuseKeeps(g: Shared, me: Slot, f: Frame)
    requires At(g, me, f) && f.Adding? && f.apc.Check? && !IsStopRequestable(f.apc.seen)
    ensures Kept(g, me, AddStep(g, me, f, Go))
  {
    assert CbOk(g, f.cb);
    var g2 := AddStep(g, me, f, Go).after;
    forall cb ensures CbOk(g2, cb) && CbMoves(g, g2, me, cb) {
      assert CbOk(g, cb);
    }
  }

  lemma CheckLockKeeps(g: Shared, me: Slot, f: Frame)
    requires At(g, me, f) && f.Adding? && f.apc.Check?
    requires WordOk(g)
    requires !AddStep(g, me, f, Swap).Blocked?
    ensures Kept(g, me, AddStep(g, me, f, Swap))
  {
    assert CbOk(g, f.cb);
    LockKeepsWord(g);
    WordFacts(g);
    var g2 := AddStep(g, me, f, Swap).after;
    forall cb ensures CbOk(g2, cb) && CbMoves(g, g2, me, cb) {
      assert CbOk(g, cb);
    }
  }

  lemma InlineKeeps(g: Shared, me: Slot, f: Frame)
    requires At(g, me, f) && f.Adding? && f.apc.Inline?
    ensures Kept(g, me, AddStep(g, me, f, Back))
  {
    assert CbOk(g, f.cb);
    var g2 := AddStep(g, me, f, Back).after;
    forall cb ensures CbOk(g2, cb) && CbMoves(g, g2, me, cb) {
      assert CbOk(g, cb);
    }
  }

  lemma PushKeeps(g: Shared, me: Slot, f: Frame)
    requires At(g, me, f) && f.Adding? && f.apc.Push?
    ensures Kept(g, me, AddStep(g, me, f, Go))
  {
    assert CbOk(g, f.cb);
    var g2 := AddStep(g, me, f, Go).after;
    forall cb ensures CbOk(g2, cb) && CbMoves(g, g2, me, cb) {
      assert CbOk(g, cb);
    }
  }

  lemma PublishingKeeps(g: Shared, me: Slot, f: Frame)
    requires At(g, me, f) && f.Adding? && f.apc.Publishing?
    ensures Kept(g, me, AddStep(g, me, f, Go))
  {
    assert CbOk(g, f.cb);
    var g2 := AddStep(g, me, f, Go).after;
    forall cb ensures CbOk(g2, cb) && CbMoves(g, g2, me, cb) {
      assert CbOk(g, cb);
    }
  }

  // -- __remove_callback --

  lemma LockReadKeeps(g: Shared, me: Slot, f: Frame)
    requires At(g, me, f) && f.Deleting? && f.rpc.Lock?
    ensures Kept(g, me, DeleteStep(g, me, f, Read))
  {
    assert CbOk(g, f.cb);
    var g2 := DeleteStep(g, me, f, Read).after;
    forall cb ensures CbOk(g2, cb) && CbMoves(g, g2, me, cb) {
      assert CbOk(g, cb);
    }
  }

  lemma LockKeeps(g: Shared, me: Slot, f: Frame)
    requires At(g, me, f) && f.Deleting? && f.rpc.Lock?
    requires WordOk(g) && CanLock(g, f.rpc.lockWord)
    ensures Kept(g, me, DeleteStep(g, me, f, Swap))
  {
    assert CbOk(g, f.cb);
    LockKeepsWord(g);
    var g2 := DeleteStep(g, me, f, Swap).after;
    forall cb ensures CbOk(g2, cb) && CbMoves(g, g2, me, cb) {
      assert CbOk(g, cb);
    }
  }

  lemma BodyUnlinkKeeps(g: Shared, me: Slot, f: Frame)
    requires At(g, me, f) && f.Deleting? && f.rpc.Body?
    requires f.cb in g.list
    ensures Kept(g, me, DeleteStep(g, me, f, Go))
  {
    assert CbOk(g, f.cb);
    RemoveFrom(g.list, f.cb);
    var g2 := DeleteStep(g, me, f, Go).after;
    forall cb ensures CbOk(g2, cb) && CbMoves(g, g2, me, cb) {
      assert CbOk(g, cb);
    }
  }

  lemma BodyLeaveKeeps(g: Shared, me: Slot, f: Frame)
    requires At(g, me, f) && f.Deleting? && f.rpc.Body?
    requires f.cb !in g.list
    ensures Kept(g, me, DeleteStep(g, me, f, Go))
  {
    assert CbOk(g, f.cb);
    var g2 := DeleteStep(g, me, f, Go).after;
    forall cb ensures CbOk(g2, cb) && CbMoves(g, g2, me, cb) {
      assert CbOk(g, cb);
    }
  }

  lemma UnlockDropKeeps(g: Shared, me: Slot, f: Frame)
    requires At(g, me, f) && f.Deleting? && f.rpc.UnlockDrop?
    ensures Kept(g, me, DeleteStep(g, me, f, Go))
  {
    assert CbOk(g, f.cb);
    var g2 := DeleteStep(g, me, f, Go).after;
    forall cb ensures CbOk(g2, cb) && CbMoves(g, g2, me, cb) {
      assert CbOk(g, cb);
    }
  }

  lemma UnlockKeeps(g: Shared, me: Slot, f: Frame)
    requires At(g, me, f) && f.Deleting? && f.rpc.Unlock?
    ensures Kept(g, me, DeleteStep(g, me, f, Go))
  {
    assert CbOk(g, f.cb);
    var g2 := DeleteStep(g, me, f, Go).after;
    forall cb ensures CbOk(g2, cb) && CbMoves(g, g2, me, cb) {
      assert CbOk(g, cb);
    }
  }

  lemma WhoKeeps(g: Shared, me: Slot, f: Frame)
    requires At(g, me, f) && f.Deleting? && f.rpc.Who?
    ensures Kept(g, me, DeleteStep(g, me, f, Go))
  {
    assert CbOk(g, f.cb);
    var g2 := DeleteStep(g, me, f, Go).after;
    forall cb ensures CbOk(g2, cb) && CbMoves(g, g2, me, cb) {
      assert CbOk(g, cb);
    }
  }

  lemma SelfKeeps(g: Shared, me: Slot, f: Frame)
    requires At(g, me, f) && f.Deleting? && f.rpc.Self?
    requires g.drain.Active? && g.drain.slot.tid == me.tid ==>
      g.drain.slot.at < me.at && g.drain.pc.On? && g.drain.pc.stage.Running?
    ensures Kept(g, me, DeleteStep(g, me, f, Go))
  {
    assert CbOk(g, f.cb);
    var g2 := DeleteStep(g, me, f, Go).after;
    forall cb ensures CbOk(g2, cb) && CbMoves(g, g2, me, cb) {
      assert CbOk(g, cb);
    }
  }

  lemma WaitKeeps(g: Shared, me: Slot, f: Frame)
    requires At(g, me, f) && f.Deleting? && f.rpc.Wait?
    requires f.cb in g.finished
    ensures Kept(g, me, DeleteStep(g, me, f, Go))
  {
    assert CbOk(g, f.cb);
    var g2 := DeleteStep(g, me, f, Go).after;
    forall cb ensures CbOk(g2, cb) && CbMoves(g, g2, me, cb) {
      assert CbOk(g, cb);
    }
  }

  lemma DropRanKeeps(g: Shared, me: Slot, f: Frame)
    requires At(g, me, f) && f.Deleting? && f.rpc.Drop? && g.phase[f.cb].Ran?
    ensures Kept(g, me, DeleteStep(g, me, f, Go))
  {
    assert CbOk(g, f.cb);
    var g2 := DeleteStep(g, me, f, Go).after;
    forall cb ensures CbOk(g2, cb) && CbMoves(g, g2, me, cb) {
      assert CbOk(g, cb);
    }
  }

  lemma DropInsideKeeps(g: Shared, me: Slot, f: Frame)
    requires At(g, me, f) && f.Deleting? && f.rpc.Drop? && DestroysItself(g, me, f.cb)
    ensures Kept(g, me, DeleteStep(g, me, f, Go))
  {
    assert CbOk(g, f.cb);
    var g2 := DeleteStep(g, me, f, Go).after;
    forall cb ensures CbOk(g2, cb) && CbMoves(g, g2, me, cb) {
      assert CbOk(g, cb);
    }
  }

  lemma TailOf(list: seq<Cb>)
    requires NoDuplicates(list) && list != []
    ensures forall cb :: cb in list[1..] <==> cb in list && cb != list[0]
  {
    assert list == [list[0]] + list[1..];
  }

  lemma {:induction false} RemoveFrom(list: seq<Cb>, cb: Cb)
    requires NoDuplicates(list) && cb in list
    ensures var r := Remove(list, cb);
      NoDuplicates(r) && |r| == |list| - 1 && forall x :: x in r <==> x in list && x != cb
  {
    assert list == [list[0]] + list[1..];
    if list[0] != cb {
      RemoveFrom(list[1..], cb);
      assert list[0] !in list[1..];
    }
  }
}
