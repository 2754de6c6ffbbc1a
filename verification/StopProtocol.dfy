/** The shared stop state as a step system: any number of threads, callbacks, tokens and sources, one
    atomic access a step. Code under the spin lock is one step between the step that takes the lock and the
    step that releases it. A callback is arbitrary client code, so calls nest and a thread is a stack of frames. */
module StopProtocol {
  import opened StopWord
  import opened Wrappers

  type Tid = nat
  type Cb = nat
  type Tok = nat
  type Src = nat

  // A frame's position: its thread and its depth in that thread's stack.
  datatype Slot = Slot(tid: Tid, at: nat)

  // __request_stop after it won, named after what its thread does next. On is the handling of one dequeued
  // callback; more says whether the list held others when it was dequeued.
  datatype DrainPc = Publish | Head | On(cb: Cb, more: bool, stage: Stage) | Next(more: bool)
    | Relock(lockWord: Option<nat>) | Last
  datatype Stage = Unlocking | Arming | Calling | Running | Returned | Disarming | Finishing
  // __try_add_callback
  datatype AddPc = Look | Check(seen: nat) | Inline | Push | Publishing
  // __remove_callback
  datatype DelPc = Lock(lockWord: Option<nat>) | Body | UnlockDrop | Unlock | Who | Self | Wait | Drop

  // A call in progress.
  datatype Frame =
    // __request_stop through source src, not yet decided
    | Asking(src: Src, seen: Option<nat>)
    | Draining(src: Src, dpc: DrainPc)
    // the constructor of callback cb with token tok; moves says whether the callback takes over the
    // token's reference
    | Adding(tok: Tok, cb: Cb, moves: bool, apc: AddPc)
    // the destructor of callback cb
    | Deleting(cb: Cb, rpc: DelPc)

  // How a callback object's life ended.
  datatype End = Refused | Inlined(tid: Tid) | Unrun | AfterRun | Inside

  // Where a callback object is in its life.
  datatype Phase =
    | Building(slot: Slot)  // its constructor runs, it is not in the list
    | Inlining(slot: Slot)  // its constructor saw the stop and runs it
    | Pushed(slot: Slot)    // in the list, its constructor still holds the lock
    | Linked              // in the list
    | Current             // dequeued, the signalling thread is dealing with it
    | Ran                 // dequeued and marked as finished
    | Unlinked(slot: Slot)  // taken out unrun, its destructor still holds the lock
    | Gone(end: End)      // no longer an object

  // What became of the one __request_stop that wins; Active repeats its frame.
  datatype Drain = Unclaimed | Active(slot: Slot, src: Src, pc: DrainPc) | Over(tid: Tid)

  // The fields up to finished are the memory of the program. The others are history: the live objects that
  // hold a reference, and what has happened so far.
  datatype Shared = Shared(
    word: nat,
    list: seq<Cb>,              // __head_, __next_ and __prev_, as refined by module CallbackList
    signaller: Option<Tid>,     // __signallingThread_
    removedFlag: bool,          // __isRemoved on the winner's stack
    armed: set<Cb>,             // callbacks whose __isRemoved_ is not null
    finished: set<Cb>,          // callbacks whose __callbackFinishedExecuting_ is set
    sources: set<Src>, tokens: set<Tok>, attached: set<Cb>,
    phase: map<Cb, Phase>,
    remover: map<Cb, Slot>,     // destructors in progress
    owner: Option<Slot>,        // the frame that took the lock
    drain: Drain,
    wins: nat,
    execs: multiset<(Cb, Tid)>, // who ran what
    frees: nat)                 // how often 'delete this' was reached

  datatype State = State(g: Shared, stacks: map<Tid, seq<Frame>>)

  function StackOf(s: State, t: Tid): seq<Frame> { if t in s.stacks then s.stacks[t] else [] }

  function Stopped(g: Shared): bool { g.drain != Unclaimed }

  function Refs(g: Shared): nat { |g.tokens| + |g.attached| }

  // A frame that is executing client code.
  predicate RunsClientCode(f: Frame) {
    (f.Draining? && f.dpc.On? && f.dpc.stage.Running?) || (f.Adding? && f.apc.Inline?)
  }

  datatype Kind = Read | Swap | Go | Back

  datatype Outcome = Blocked | Goes(after: Shared, frame: Frame) | Returns(after: Shared)

  // The list without the first occurrence of x.
  function Remove<T(==)>(list: seq<T>, x: T): seq<T> {
    if list == [] then [] else if list[0] == x then list[1..] else [list[0]] + Remove(list[1..], x)
  }

  function Free(b: bool): nat { if b then 1 else 0 }

  predicate CanLock(g: Shared, seen: Option<nat>) { seen.Some? && !IsLocked(seen.value) && g.word == seen.value }

  function TakeLock(g: Shared, me: Slot): Shared { g.(word := OrLocked(g.word), owner := Some(me)) }

  function DropLock(g: Shared): Shared { g.(word := FetchSub(g.word, LOCKED_FLAG), owner := None) }

  /** One step of __try_lock_and_signal_until_signalled. A failed or spurious compare-exchange reloads the
      word, as the spin loops do, so it is a Read. */
  function AskStep(g: Shared, me: Slot, f: Frame, k: Kind): Outcome
    requires f.Asking?
  {
    match k
    case Read =>
      if f.seen.Some? && IsStopRequested(f.seen.value) then Blocked else Goes(g, f.(seen := Some(g.word)))
    case Go => if f.seen.Some? && IsStopRequested(f.seen.value) then Returns(g) else Blocked
    case Swap =>
      if !CanLock(g, f.seen) || IsStopRequested(f.seen.value) then Blocked
      else Goes(g.(word := OrLocked(OrStop(f.seen.value)), owner := Some(me), wins := g.wins + 1,
                   drain := Active(me, f.src, Publish)), Draining(f.src, Publish))
    case Back => Blocked
  }

  /** One step of the rest of __request_stop. */
  function DrainStep(g: Shared, me: Slot, f: Frame, k: Kind): Outcome
    requires f.Draining?
  {
    match f.dpc
    case Publish => if k != Go then Blocked else Drains(g.(signaller := Some(me.tid)), me, f.src, Head)
    case Head =>
      if k != Go then Blocked
      else if g.list == [] then Drains(g, me, f.src, Last)
      else Drains(Dequeue(g), me, f.src, On(g.list[0], |g.list| > 1, Unlocking))
    case On(cb, more, stage) => HandleStep(g, me, f.src, cb, more, stage, k)
    case Next(more) =>
      if k != Go then Blocked else if more then Drains(g, me, f.src, Relock(None))
      else Returns(g.(drain := Over(me.tid)))
    case Relock(seen) =>
      if k == Read then Drains(g, me, f.src, Relock(Some(g.word)))
      else if k == Swap && CanLock(g, seen) then Drains(TakeLock(g, me), me, f.src, Head)
      else Blocked
    case Last => if k != Go then Blocked else Returns(DropLock(g).(drain := Over(me.tid)))
  }

  function Dequeue(g: Shared): Shared
    requires g.list != []
  {
    g.(list := g.list[1..], phase := g.phase[g.list[0] := Current])
  }

  function HandleStep(g: Shared, me: Slot, src: Src, cb: Cb, more: bool, stage: Stage, k: Kind): Outcome {
    match (stage, k)
    case (Unlocking, Go) => Drains(DropLock(g), me, src, On(cb, more, Arming))
    case (Arming, Go) => Drains(g.(removedFlag := false, armed := g.armed + {cb}), me, src, On(cb, more, Calling))
    case (Calling, Go) => Drains(g.(execs := g.execs + multiset{(cb, me.tid)}), me, src, On(cb, more, Running))
    case (Running, Back) => Drains(g, me, src, On(cb, more, Returned))
    case (Returned, Go) => Drains(g, me, src, if g.removedFlag then Next(more) else On(cb, more, Disarming))
    case (Disarming, Go) => Drains(g.(armed := g.armed - {cb}), me, src, On(cb, more, Finishing))
    case (Finishing, Go) =>
      Drains(g.(finished := g.finished + {cb}, phase := g.phase[cb := Ran]), me, src, Next(more))
    case _ => Blocked
  }

  function Drains(g: Shared, me: Slot, src: Src, pc: DrainPc): Outcome {
    Goes(g.(drain := Active(me, src, pc)), Draining(src, pc))
  }

  /** One step of __try_add_callback. */
  function AddStep(g: Shared, me: Slot, f: Frame, k: Kind): Outcome
    requires f.Adding?
  {
    match f.apc
    case Look => if k != Read then Blocked else Goes(g, f.(apc := Check(g.word)))
    case Check(seen) =>
      if IsStopRequested(seen) then
        if k != Go then Blocked
        else Goes(g.(execs := g.execs + multiset{(f.cb, me.tid)}, phase := g.phase[f.cb := Inlining(me)]),
                  f.(apc := Inline))
      else if !IsStopRequestable(seen) then
        if k != Go then Blocked else Returns(g.(phase := g.phase[f.cb := Gone(Refused)]))
      else if k == Read then Goes(g, f.(apc := Check(g.word)))
      else if k == Swap && CanLock(g, Some(seen)) then Goes(TakeLock(g, me), f.(apc := Push))
      else Blocked
    case Inline => if k != Back then Blocked else Returns(g.(phase := g.phase[f.cb := Gone(Inlined(me.tid))]))
    case Push =>
      if k != Go then Blocked
      else Goes(g.(list := [f.cb] + g.list, phase := g.phase[f.cb := Pushed(me)]), f.(apc := Publishing))
    case Publishing => if k != Go then Blocked else Returns(Publicise(g, f))
  }

  // The constructor releases the lock and the object starts to hold a reference.
  function Publicise(g: Shared, f: Frame): Shared
    requires f.Adding?
  {
    var g1 := g.(owner := None, attached := g.attached + {f.cb}, phase := g.phase[f.cb := Linked]);
    if f.moves then g1.(word := FetchSub(g.word, LOCKED_FLAG), tokens := g.tokens - {f.tok})
    else g1.(word := FetchSub(g.word, LockedMinusToken()))
  }

  /** One step of __remove_callback. */
  function DeleteStep(g: Shared, me: Slot, f: Frame, k: Kind): Outcome
    requires f.Deleting?
  {
    if f.rpc.Lock? then
      if k == Read then Goes(g, f.(rpc := Lock(Some(g.word))))
      else if k == Swap && CanLock(g, f.rpc.lockWord) then Goes(TakeLock(g, me), f.(rpc := Body))
      else Blocked
    else if k != Go then Blocked
    else match f.rpc
      case Body =>
        if f.cb in g.list then
          Goes(g.(list := Remove(g.list, f.cb), phase := g.phase[f.cb := Unlinked(me)]), f.(rpc := UnlockDrop))
        else Goes(g, f.(rpc := Unlock))
      case UnlockDrop =>
        Returns(Release(g, f.cb, Unrun).(word := FetchSub(g.word, LOCKED_FLAG + TOKEN_REF), owner := None,
                                         frees := g.frees + Free(UnlinkFrees(g.word))))
      case Unlock => Goes(DropLock(g), f.(rpc := Who))
      case Who => Goes(g, f.(rpc := if g.signaller == Some(me.tid) then Self else Wait))
      case Self => Goes(g.(removedFlag := g.removedFlag || f.cb in g.armed), f.(rpc := Drop))
      case Wait => if f.cb in g.finished then Goes(g, f.(rpc := Drop)) else Blocked
      case Drop =>
        Returns(Release(g, f.cb, if f.cb in g.finished then AfterRun else Inside).(
                word := FetchSub(g.word, TOKEN_REF), frees := g.frees + Free(DropFrees(g.word))))
  }

  // The callback object gives up its reference and is destroyed.
  function Release(g: Shared, cb: Cb, end: End): Shared {
    g.(attached := g.attached - {cb}, remover := g.remover - {cb}, phase := g.phase[cb := Gone(end)])
  }

  function Advance(g: Shared, me: Slot, f: Frame, k: Kind): Outcome {
    match f
    case Asking(_, _) => AskStep(g, me, f, k)
    case Draining(_, _) => DrainStep(g, me, f, k)
    case Adding(_, _, _, _) => AddStep(g, me, f, k)
    case Deleting(_, _) => DeleteStep(g, me, f, k)
  }

  // What a thread may do: go on with its innermost call, or act as a client.
  datatype Action =
    | Internal(kind: Kind)
    | CallRequestStop(src: Src)
    | CallTryAdd(tok: Tok, cb: Cb, moves: bool)
    | CallRemove(cb: Cb)
    | CopyToken(tok: Tok)
    | CopySource(src: Src)
    | DropToken(tok: Tok)
    | DropSource(src: Src)

  predicate InUse(s: State, used: Frame -> bool) {
    exists t, i | t in s.stacks && 0 <= i < |s.stacks[t]| :: used(s.stacks[t][i])
  }

  predicate UsesTok(f: Frame, tok: Tok) { f.Adding? && f.tok == tok }
  predicate MovesTok(f: Frame, tok: Tok) { UsesTok(f, tok) && f.moves }
  predicate UsesSrc(f: Frame, src: Src) { (f.Asking? || f.Draining?) && f.src == src }

  predicate InClientCode(s: State, t: Tid) {
    var stack := StackOf(s, t);
    stack == [] || RunsClientCode(stack[|stack| - 1])
  }

  /** What C++ asks of the client: it uses only objects that exist, never destroys one that a call in
      progress uses, destroys a callback once and after its constructor returned, and does not use a token
      elsewhere while moving it into a callback. */
  predicate ClientMay(s: State, a: Action) {
    match a
    case CallRequestStop(src) => src in s.g.sources
    case CallTryAdd(tok, cb, moves) =>
      tok in s.g.tokens && cb !in s.g.phase && !InUse(s, f => MovesTok(f, tok)) &&
      (moves ==> !InUse(s, f => UsesTok(f, tok)))
    case CallRemove(cb) => cb in s.g.attached && cb !in s.g.remover
    case CopyToken(tok) => (s.g.tokens != {} || s.g.sources != {}) && tok !in s.g.tokens
    case CopySource(src) => s.g.sources != {} && src !in s.g.sources
    case DropToken(tok) => tok in s.g.tokens && !InUse(s, f => UsesTok(f, tok))
    case DropSource(src) => src in s.g.sources && !InUse(s, f => UsesSrc(f, src))
    case Internal(_) => false
  }

  function ClientStep(s: State, t: Tid, a: Action): State
    requires !a.Internal?
  {
    var g := s.g;
    var stack := StackOf(s, t);
    match a
    case CallRequestStop(src) => s.(stacks := s.stacks[t := stack + [Asking(src, None)]])
    case CallTryAdd(tok, cb, moves) =>
      State(g.(phase := g.phase[cb := Building(Slot(t, |stack|))]), s.stacks[t := stack + [Adding(tok, cb, moves, Look)]])
    case CallRemove(cb) =>
      State(g.(remover := g.remover[cb := Slot(t, |stack|)]), s.stacks[t := stack + [Deleting(cb, Lock(None))]])
    case CopyToken(tok) => s.(g := g.(tokens := g.tokens + {tok}, word := FetchAdd(g.word, TOKEN_REF)))
    case CopySource(src) => s.(g := g.(sources := g.sources + {src}, word := FetchAdd(g.word, SOURCE_REF)))
    case DropToken(tok) =>
      s.(g := g.(tokens := g.tokens - {tok}, word := FetchSub(g.word, TOKEN_REF),
                 frees := g.frees + Free(DropFrees(g.word))))
    case DropSource(src) =>
      s.(g := g.(sources := g.sources - {src}, word := FetchSub(g.word, SOURCE_REF),
                 frees := g.frees + Free(DropFrees(g.word))))
  }

  // Thread t takes step a from s to s2.
  ghost predicate Step(s: State, t: Tid, a: Action, s2: State) {
    if a.Internal? then
      var stack := StackOf(s, t);
      && stack != []
      && var top := |stack| - 1;
      match Advance(s.g, Slot(t, top), stack[top], a.kind)
      case Blocked => false
      case Goes(g2, f2) => s2 == State(g2, s.stacks[t := stack[top := f2]])
      case Returns(g2) => s2 == State(g2, s.stacks[t := stack[..top]])
    else InClientCode(s, t) && ClientMay(s, a) && s2 == ClientStep(s, t, a)
  }

  // A fresh state belongs to the stop_source that allocated it.
  const INITIAL: State :=
    State(Shared(SOURCE_REF, [], None, false, {}, {}, {0}, {}, {}, map[], map[], None, Unclaimed, 0, multiset{}, 0),
          map[])

  predicate CountsFit(s: State) { InRange(Refs(s.g), |s.g.sources|) }
}
