/** The inductive invariant of the stop-state protocol, in rely/guarantee style: facts about the shared state,
    an assertion at every frame of every stack, and what a step of one frame guarantees to all the others. */
module StopInvariant {
  import opened StopWord
  import opened Wrappers
  import opened StopProtocol

  // -- Facts about the shared state --

  ghost predicate NeverRan(execs: multiset<(Cb, Tid)>, cb: Cb) { forall t :: (cb, t) !in execs }

  ghost predicate RanOnce(execs: multiset<(Cb, Tid)>, cb: Cb, runner: Tid) {
    execs[(cb, runner)] == 1 && forall t :: t != runner ==> (cb, t) !in execs
  }

  ghost predicate RanOnceBySignaller(g: Shared, cb: Cb) { g.signaller.Some? && RanOnce(g.execs, cb, g.signaller.value) }

  predicate InList(p: Phase) { p.Pushed? || p.Linked? }
  // Phases in which the callback object holds a reference.
  predicate HoldsRef(p: Phase) { p.Linked? || p.Current? || p.Ran? || p.Unlinked? }

  ghost predicate PhaseFacts(g: Shared, cb: Cb, p: Phase) {
    match p
    case Building(_) => NeverRan(g.execs, cb) && cb !in g.armed
    case Inlining(slot) => Stopped(g) && RanOnce(g.execs, cb, slot.tid)
    case Pushed(slot) =>
      && g.owner == Some(slot) && g.drain == Unclaimed && NeverRan(g.execs, cb) && cb !in g.armed
      && g.list != [] && g.list[0] == cb
    case Linked => NeverRan(g.execs, cb) && cb !in g.armed
    case Current =>
      && g.drain.Active? && g.drain.pc.On? && g.drain.pc.cb == cb
      && (var stage := g.drain.pc.stage;
          && (if stage.Unlocking? || stage.Arming? || stage.Calling? then NeverRan(g.execs, cb) else RanOnceBySignaller(g, cb))
          && (cb in g.armed <==> !stage.Unlocking? && !stage.Arming? && !stage.Finishing?))
    case Ran => cb !in g.armed && RanOnceBySignaller(g, cb)
    case Unlinked(slot) => g.owner == Some(slot) && cb in g.remover && g.remover[cb] == slot && NeverRan(g.execs, cb)
    case Gone(end) =>
      (match end
       case Refused => NeverRan(g.execs, cb) && g.sources == {} && !Stopped(g)
       case Unrun => NeverRan(g.execs, cb)
       case Inlined(t) => Stopped(g) && RanOnce(g.execs, cb, t)
       case AfterRun => RanOnceBySignaller(g, cb)
       case Inside => RanOnceBySignaller(g, cb))
  }

  // Everything the shared state says about one callback object.
  ghost predicate CbOk(g: Shared, cb: Cb) {
    if cb in g.phase then
      var p := g.phase[cb];
      && PhaseFacts(g, cb, p)
      && (cb in g.list <==> InList(p))
      && (cb in g.attached <==> HoldsRef(p))
      && (cb in g.finished <==> p.Ran? || p == Gone(AfterRun))
      && (cb in g.remover ==> cb in g.attached)
    else
      && NeverRan(g.execs, cb) && cb !in g.list && cb !in g.attached && cb !in g.finished && cb !in g.armed
      && cb !in g.remover
  }

  ghost predicate NoDuplicates(list: seq<Cb>) { forall i, j | 0 <= i < j < |list| :: list[i] != list[j] }

  ghost predicate WordOk(g: Shared) {
    && InRange(Refs(g), |g.sources|)
    && g.word == Pack(Stopped(g), g.owner.Some?, Refs(g), |g.sources|)
  }

  // Whether a thread at this point holds the lock.
  predicate DrainLocks(pc: DrainPc) { pc.Publish? || pc.Head? || pc.Last? || (pc.On? && pc.stage.Unlocking?) }
  predicate AddLocks(pc: AddPc) { pc.Push? || pc.Publishing? }
  predicate DeleteLocks(pc: DelPc) { pc.Body? || pc.UnlockDrop? || pc.Unlock? }
  predicate HoldsLock(f: Frame) {
    match f
    case Asking(_, _) => false
    case Draining(_, pc) => DrainLocks(pc)
    case Adding(_, _, _, pc) => AddLocks(pc)
    case Deleting(_, pc) => DeleteLocks(pc)
  }

  ghost predicate DrainOk(g: Shared) {
    match g.drain
    case Unclaimed => g.wins == 0 && g.signaller == None
    case Active(me, src, pc) =>
      && g.wins == 1
      && src in g.sources
      && g.signaller == (if pc.Publish? then None else Some(me.tid))
      && (DrainLocks(pc) ==> g.owner == Some(me))
      && (pc.Last? || ((pc.On? || pc.Next?) && !pc.more) ==> g.list == [])
      && (pc.On? ==> pc.cb in g.phase && CallbackOk(g, me, pc.cb, pc.stage))
    case Over(t) => g.wins == 1 && g.signaller == Some(t) && g.list == []
  }

  // The dequeued callback still exists, or it was destroyed by its own thread while it ran.
  ghost predicate CallbackOk(g: Shared, me: Slot, cb: Cb, stage: Stage)
    requires cb in g.phase
  {
    match stage
    case Running =>
      if g.phase[cb] == Current then
        g.removedFlag ==> cb in g.remover && g.remover[cb].tid == me.tid && g.remover[cb].at > me.at
      else g.phase[cb] == Gone(Inside) && g.removedFlag
    case Returned => g.phase[cb] == if g.removedFlag then Gone(Inside) else Current
    case Calling => g.phase[cb] == Current && !g.removedFlag
    case _ => g.phase[cb] == Current
  }

  ghost predicate Logic(g: Shared) { NoDuplicates(g.list) && (forall cb :: CbOk(g, cb)) && DrainOk(g) }

  ghost predicate GInv(g: Shared) { WordOk(g) && Logic(g) }

  // -- The assertion at a frame --

  ghost predicate FrameOk(g: Shared, me: Slot, f: Frame) {
    && (HoldsLock(f) ==> g.owner == Some(me))
    && match f
       case Asking(src, seen) =>
         src in g.sources && (seen.Some? && IsStopRequested(seen.value) ==> Stopped(g))
       case Draining(src, pc) => g.drain == Active(me, src, pc)
       case Adding(tok, cb, _, pc) => tok in g.tokens && cb in g.phase && AddOk(g, me, cb, pc)
       case Deleting(cb, pc) => cb in g.remover && g.remover[cb] == me && cb in g.phase && DeleteOk(g, me, cb, pc)
  }

  ghost predicate AddOk(g: Shared, me: Slot, cb: Cb, pc: AddPc)
    requires cb in g.phase
  {
    match pc
    case Look => g.phase[cb] == Building(me)
    case Check(seen) =>
      && g.phase[cb] == Building(me)
      && (IsStopRequested(seen) ==> Stopped(g))
      && (!IsStopRequestable(seen) ==> g.sources == {} && !Stopped(g))
    case Inline => g.phase[cb] == Inlining(me)
    case Push => g.phase[cb] == Building(me) && !Stopped(g)
    case Publishing => g.phase[cb] == Pushed(me) && !Stopped(g)
  }

  ghost predicate DeleteOk(g: Shared, me: Slot, cb: Cb, pc: DelPc)
    requires cb in g.phase
  {
    var p := g.phase[cb];
    match pc
    case Lock(_) => p.Linked? || p.Current? || p.Ran?
    case Body => p.Linked? || p.Current? || p.Ran?
    case UnlockDrop => p == Unlinked(me)
    case Unlock => p.Current? || p.Ran?
    case Who => p.Current? || p.Ran?
    case Self => (p.Current? || p.Ran?) && g.signaller == Some(me.tid)
    case Wait => (p.Current? || p.Ran?) && g.signaller != Some(me.tid)
    case Drop => p.Ran? || DestroysItself(g, me, cb)
  }

  // The running callback is being destroyed by the signalling thread, from inside the callback.
  ghost predicate DestroysItself(g: Shared, me: Slot, cb: Cb) {
    && g.removedFlag
    && cb in g.phase && g.phase[cb] == Current
    && g.drain.Active? && g.drain.slot.tid == me.tid && g.drain.slot.at < me.at
    && g.drain.pc.On? && g.drain.pc.stage.Running?
  }

  // The frame whose constructor is building the callback, if any.
  function Builder(p: Phase): Option<Slot> {
    if p.Building? || p.Inlining? || p.Pushed? then Some(p.slot) else None
  }

  // What the history says about this slot is about the call there.
  ghost predicate SlotOk(g: Shared, me: Slot, f: Frame) {
    && (forall cb | cb in g.remover && g.remover[cb] == me :: f.Deleting? && f.cb == cb)
    && (forall cb | cb in g.phase && Builder(g.phase[cb]) == Some(me) :: f.Adding? && f.cb == cb)
    && (g.drain.Active? && g.drain.slot == me ==> f == Draining(g.drain.src, g.drain.pc))
    && (g.owner == Some(me) ==> HoldsLock(f))
  }

  // The history says nothing about this slot.
  ghost predicate SlotFree(g: Shared, me: Slot) {
    && (forall cb | cb in g.remover :: g.remover[cb] != me)
    && (forall cb | cb in g.phase :: Builder(g.phase[cb]) != Some(me))
    && (g.drain.Active? ==> g.drain.slot != me)
    && g.owner != Some(me)
  }

  // -- What a step at slot me guarantees to every other frame --

  ghost predicate Guarantee(g: Shared, g2: Shared, me: Slot) {
    && (g.owner.Some? && g.owner != Some(me) ==> g2.owner == g.owner && (Stopped(g) <==> Stopped(g2)))
    && (g2.owner.Some? && g2.owner != Some(me) ==> g2.owner == g.owner)
    && (Stopped(g) ==> Stopped(g2))
    && (g.sources == {} && !Stopped(g) ==> g2.sources == {} && !Stopped(g2))
    && (g.drain.Active? && g.drain.slot != me ==> g2.drain == g.drain)
    && (g2.drain.Active? && g2.drain.slot != me ==> g2.drain == g.drain)
    && (g.drain.Active? && g.drain.slot.tid != me.tid ==> g2.removedFlag == g.removedFlag)
    && (g.signaller.Some? ==> g2.signaller == g.signaller)
    && (forall cb :: CbMoves(g, g2, me, cb))
  }

  ghost predicate CbMoves(g: Shared, g2: Shared, me: Slot, cb: Cb) {
    && (cb in g.remover && g.remover[cb] != me ==> cb in g2.remover && g2.remover[cb] == g.remover[cb])
    && (cb in g2.remover && g2.remover[cb] != me ==> cb in g.remover && g2.remover[cb] == g.remover[cb])
    && (cb in g.phase ==> cb in g2.phase && PhaseMoves(g, me, cb, g.phase[cb], g2.phase[cb]))
    && (cb !in g.phase && cb in g2.phase ==> g2.phase[cb] == Building(me))
    && (cb in g2.phase && Builder(g2.phase[cb]) != None && Builder(g2.phase[cb]) != Some(me) ==>
          cb in g.phase && Builder(g.phase[cb]) == Builder(g2.phase[cb]))
  }

  // The life cycle of a callback object, and which call may move it on.
  ghost predicate PhaseMoves(g: Shared, me: Slot, cb: Cb, p: Phase, p2: Phase) {
    p2 == p ||
    match p
    case Building(slot) => slot == me && (p2 == Inlining(me) || p2 == Pushed(me) || p2 == Gone(Refused))
    case Inlining(slot) => slot == me && p2 == Gone(Inlined(me.tid))
    case Pushed(slot) => slot == me && p2.Linked?
    case Linked => (p2.Current? && g.owner == Some(me)) || (cb in g.remover && g.remover[cb] == me && p2 == Unlinked(me))
    case Unlinked(slot) => slot == me && p2 == Gone(Unrun)
    case Current => (p2.Ran? && g.drain.Active? && g.drain.slot == me) ||
                    (cb in g.remover && g.remover[cb] == me && p2 == Gone(Inside))
    case Ran => cb in g.remover && g.remover[cb] == me && p2 == Gone(AfterRun)
    case Gone(_) => false
  }

  /** Rely: a frame's assertion survives a step of any other frame. */
  lemma Stable(g: Shared, g2: Shared, me: Slot, you: Slot, f: Frame)
    requires GInv(g) && FrameOk(g, you, f) && Guarantee(g, g2, me)
    requires you != me && (you.tid == me.tid ==> RunsClientCode(f))
    requires f.Asking? ==> f.src in g2.sources
    requires f.Adding? ==> f.tok in g2.tokens
    ensures FrameOk(g2, you, f)
  {
    if f.Deleting? || f.Adding? {
      assert CbOk(g, f.cb) && CbMoves(g, g2, me, f.cb);
    }
  }
}
