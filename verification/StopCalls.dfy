/** What each call of the stop-state protocol does and answers, whatever the interleaving: the steps in which it takes
    effect and returns, in terms of the memory before and after; and that no call is ever stuck. */
module StopCalls {
  import opened StopWord
  import opened Wrappers
  import opened StopProtocol
  import opened StopInvariant
  import opened StopSteps
  import opened StopRuns
  import opened StopTheorems

  // The innermost call of thread t.
  function Top(s: State, t: Tid): Frame
    requires StackOf(s, t) != []
  {
    StackOf(s, t)[|StackOf(s, t)| - 1]
  }

  // Step i is a step of the innermost call of its thread.
  ghost predicate StepsCall(states: seq<State>, tids: seq<Tid>, acts: seq<Action>, i: nat) {
    Run(states, tids, acts) && i < |acts| && acts[i].Internal?
  }

  // In step i that call returns.
  predicate Returning(states: seq<State>, tids: seq<Tid>, i: nat)
    requires i + 1 < |states| && i < |tids|
  {
    |StackOf(states[i + 1], tids[i])| < |StackOf(states[i], tids[i])|
  }

  // What is known when the innermost call takes a step.
  lemma StepFacts(states: seq<State>, tids: seq<Tid>, acts: seq<Action>, i: nat)
    requires StepsCall(states, tids, acts, i)
    ensures StackOf(states[i], tids[i]) != []
    ensures GInv(states[i].g) && GInv(states[i + 1].g)
    ensures var s, t, s2 := states[i], tids[i], states[i + 1];
      var me, f := Slot(t, |StackOf(s, t)| - 1), Top(s, t);
      && At(s.g, me, f) && StackFacts(s.g, me, f)
      && match Advance(s.g, me, f, acts[i].kind)
         case Blocked => false
         case Goes(g2, f2) => s2.g == g2 && |StackOf(s2, t)| == |StackOf(s, t)| && Top(s2, t) == f2
         case Returns(g2) => s2.g == g2 && |StackOf(s2, t)| == |StackOf(s, t)| - 1
  {
    RunKeeps(states, tids, acts, i);
    RunKeeps(states, tids, acts, i + 1);
    assert StepAt(states, tids, acts, i);
    TopFacts(states[i], tids[i]);
  }

  // -- A callback runs only after a stop was requested --

  /** Whoever runs a callback, a stop has been requested before. */
  lemma RunsOnlyAfterStop(states: seq<State>, tids: seq<Tid>, acts: seq<Action>, i: nat)
    requires Run(states, tids, acts) && i < |states|
    ensures forall cb, t | (cb, t) in states[i].g.execs :: states[i].g.wins == 1
    ensures forall cb | cb in states[i].g.phase && states[i].g.phase[cb].Gone? && states[i].g.phase[cb].end.Inlined? ::
      states[i].g.wins == 1
  {
    RunKeeps(states, tids, acts, i);
    forall cb, t | (cb, t) in states[i].g.execs ensures states[i].g.wins == 1 { assert CbOk(states[i].g, cb); }
    forall cb | cb in states[i].g.phase && states[i].g.phase[cb].Gone? && states[i].g.phase[cb].end.Inlined?
      ensures states[i].g.wins == 1
    {
      assert CbOk(states[i].g, cb);
    }
  }

  // -- What a client starts --

  // Thread t's stack has grown by this call.
  ghost predicate Starts(s: State, t: Tid, s2: State, f: Frame) {
    StackOf(s2, t) == StackOf(s, t) + [f] && forall u | u != t :: StackOf(s2, u) == StackOf(s, u)
  }

  predicate SameStacks(s: State, s2: State) { s2.stacks == s.stacks }

  /** What a client's own step does: a call starts with nothing read yet, and changes neither the word, the list nor any
      reference; copies and drops of tokens and sources change just the one reference count. */
  lemma ClientSteps(states: seq<State>, tids: seq<Tid>, acts: seq<Action>, i: nat)
    requires Run(states, tids, acts) && i < |acts| && !acts[i].Internal?
    ensures var s, t, a, s2 := states[i], tids[i], acts[i], states[i + 1];
      var g, g2 := s.g, s2.g;
      && g2.execs == g.execs && g2.wins == g.wins && g2.list == g.list && g2.attached == g.attached
      && match a
         case CallRequestStop(src) => g2 == g && Starts(s, t, s2, Asking(src, None))
         case CallTryAdd(tok, cb, moves) => Untouched(g, g2) && Starts(s, t, s2, Adding(tok, cb, moves, Look))
         case CallRemove(cb) => Untouched(g, g2) && Starts(s, t, s2, Deleting(cb, Lock(None)))
         case CopyToken(tok) => SameStacks(s, s2) && g2.tokens == g.tokens + {tok} && g2.sources == g.sources
         case DropToken(tok) => SameStacks(s, s2) && g2.tokens == g.tokens - {tok} && g2.sources == g.sources
         case CopySource(src) => SameStacks(s, s2) && g2.sources == g.sources + {src} && g2.tokens == g.tokens
         case DropSource(src) => SameStacks(s, s2) && g2.sources == g.sources - {src} && g2.tokens == g.tokens
  {
    assert StepAt(states, tids, acts, i);
  }

  // -- request_stop --

  /** A request_stop that returns without having won changes nothing, and the stop has been requested. Until then it
      either waits, or wins in one step, being the first: it sets the stop flag and takes the lock. */
  lemma RequestStopAnswers(states: seq<State>, tids: seq<Tid>, acts: seq<Action>, i: nat)
    requires StepsCall(states, tids, acts, i) && StackOf(states[i], tids[i]) != [] && Top(states[i], tids[i]).Asking?
    ensures var s, t, s2 := states[i], tids[i], states[i + 1];
      if Returning(states, tids, i) then s.g.wins == 1 && IsStopRequested(s.g.word) && s2.g == s.g
      else
        && StackOf(s2, t) != []
        && (if Top(s2, t).Asking? then s2.g == s.g && Top(s2, t).src == Top(s, t).src
            else
              && Top(s2, t) == Draining(Top(s, t).src, Publish)
              && s.g.wins == 0 && !IsStopRequested(s.g.word) && !IsLocked(s.g.word)
              && s2.g.wins == 1 && IsStopRequested(s2.g.word) && IsLocked(s2.g.word))
  {
    StepFacts(states, tids, acts, i);
    WordFacts(states[i].g);
    WordFacts(states[i + 1].g);
  }

  /** The request_stop that won returns only when the list is empty, and gives the lock back. */
  lemma WinnerAnswers(states: seq<State>, tids: seq<Tid>, acts: seq<Action>, i: nat)
    requires StepsCall(states, tids, acts, i) && StackOf(states[i], tids[i]) != [] && Top(states[i], tids[i]).Draining?
    ensures var s, t, s2 := states[i], tids[i], states[i + 1];
      && s.g.wins == 1 && s2.g.wins == 1
      && if Returning(states, tids, i) then
           s2.g.list == [] && s2.g.drain == Over(t) && s2.g.owner != Some(Slot(t, |StackOf(s, t)| - 1))
         else StackOf(s2, t) != [] && Top(s2, t).Draining? && Top(s2, t).src == Top(s, t).src
  {
    StepFacts(states, tids, acts, i);
  }

  // -- The registration of a callback --

  // Callback cb has been executed.
  ghost predicate WasRun(g: Shared, cb: Cb) { exists t :: (cb, t) in g.execs }

  predicate EndedAs(g: Shared, cb: Cb, end: End) { cb in g.phase && g.phase[cb] == Gone(end) }

  // The word, the list and all references are as before.
  predicate Untouched(g: Shared, g2: Shared) {
    g2.word == g.word && g2.list == g.list && g2.tokens == g.tokens && g2.attached == g.attached && g2.sources == g.sources
  }

  // How a registration of cb may end.
  ghost predicate Registered(g: Shared, g2: Shared, f: Frame, t: Tid)
    requires f.Adding?
  {
    || (g.wins == 0 && g2.list == g.list != [] && g.list[0] == f.cb && !WasRun(g2, f.cb) && g2.attached == g.attached + {f.cb}
        && g2.tokens == (if f.moves then g.tokens - {f.tok} else g.tokens)
        && Refs(g2) == Refs(g) + (if f.moves then 0 else 1))
    || (g.wins == 1 && EndedAs(g2, f.cb, Inlined(t)) && RanOnce(g2.execs, f.cb, t) && Untouched(g, g2))
    || (g.wins == 0 && g.sources == {} && EndedAs(g2, f.cb, Refused) && !WasRun(g2, f.cb) && Untouched(g, g2))
  }

  lemma RegistrationPublished(g: Shared, me: Slot, f: Frame)
    requires GInv(g) && At(g, me, f) && f.Adding? && f.apc.Publishing?
    ensures Registered(g, Publicise(g, f), f, me.tid)
  {
    assert CbOk(g, f.cb);
  }

  lemma RegistrationInlined(g: Shared, me: Slot, f: Frame)
    requires GInv(g) && At(g, me, f) && f.Adding? && f.apc.Inline?
    ensures Registered(g, AddStep(g, me, f, Back).after, f, me.tid)
  {
    assert CbOk(g, f.cb);
  }

  lemma RegistrationRefused(g: Shared, me: Slot, f: Frame)
    requires GInv(g) && At(g, me, f) && f.Adding? && f.apc.Check? && !IsStopRequestable(f.apc.seen)
    ensures Registered(g, AddStep(g, me, f, Go).after, f, me.tid)
  {
    assert CbOk(g, f.cb);
  }

  lemma RegistrationRuns(g: Shared, me: Slot, f: Frame, k: Kind)
    requires GInv(g) && At(g, me, f) && f.Adding? && !AddStep(g, me, f, k).Blocked?
    ensures var g2 := AddStep(g, me, f, k).after;
      g2.execs != g.execs ==> g.wins == 1 && g2.execs == g.execs + multiset{(f.cb, me.tid)}
  {
  }

  // A registration takes the lock only with a word it has read, and that is still the same.
  lemma RegistrationSwaps(g: Shared, me: Slot, f: Frame, k: Kind)
    requires f.Adding? && !AddStep(g, me, f, k).Blocked? && g.owner == None && AddStep(g, me, f, k).after.owner.Some?
    ensures !IsStopRequested(g.word) && IsStopRequestable(g.word)
  {
  }

  lemma RegistrationGoes(g: Shared, me: Slot, f: Frame, k: Kind, g2: Shared)
    requires GInv(g) && GInv(g2) && At(g, me, f) && f.Adding? && !AddStep(g, me, f, k).Blocked?
    requires g2 == AddStep(g, me, f, k).after
    ensures g2.execs != g.execs ==> g.wins == 1 && IsStopRequested(g.word) && g2.execs == g.execs + multiset{(f.cb, me.tid)}
    ensures !IsLocked(g.word) && IsLocked(g2.word) ==> g.wins == 0 && g.sources != {}
  {
    RegistrationRuns(g, me, f, k);
    WordFacts(g);
    WordFacts(g2);
    if g.owner == None && g2.owner.Some? { RegistrationSwaps(g, me, f, k); }
  }

  lemma RegistrationStep(g: Shared, me: Slot, f: Frame, k: Kind)
    requires GInv(g) && At(g, me, f) && f.Adding? && AddStep(g, me, f, k).Returns?
    ensures Registered(g, AddStep(g, me, f, k).after, f, me.tid)
  {
    match f.apc
    case Publishing => RegistrationPublished(g, me, f);
    case Inline => RegistrationInlined(g, me, f);
    case Check(_) => RegistrationRefused(g, me, f);
  }

  /** A registration starts to run its callback only after a stop was requested, and takes the lock only while no stop
      was requested and a source exists. It returns in one of three ways: the callback is in the list, unrun, before any
      stop, and holds a reference, which it takes over from its token if it was told to; the callback has been run once,
      after a stop, by this thread; or nothing happened, as there was neither a stop nor a source. */
  lemma RegistrationAnswers(states: seq<State>, tids: seq<Tid>, acts: seq<Action>, i: nat)
    requires StepsCall(states, tids, acts, i) && StackOf(states[i], tids[i]) != [] && Top(states[i], tids[i]).Adding?
    ensures var s, t, s2 := states[i], tids[i], states[i + 1];
      var f, g, g2 := Top(s, t), s.g, s2.g;
      && (g2.execs != g.execs ==> g.wins == 1 && IsStopRequested(g.word) && g2.execs == g.execs + multiset{(f.cb, t)})
      && (!IsLocked(g.word) && IsLocked(g2.word) ==> g.wins == 0 && g.sources != {})
      && if Returning(states, tids, i) then Registered(g, g2, f, t)
         else
           && StackOf(s2, t) != [] && Top(s2, t).Adding?
           && Top(s2, t).cb == f.cb && Top(s2, t).tok == f.tok && Top(s2, t).moves == f.moves
           && g2.tokens == g.tokens && g2.attached == g.attached
  {
    StepFacts(states, tids, acts, i);
    var s, t := states[i], tids[i];
    var me, f := Slot(t, |StackOf(s, t)| - 1), Top(s, t);
    RegistrationGoes(s.g, me, f, acts[i].kind, states[i + 1].g);
    if AddStep(s.g, me, f, acts[i].kind).Returns? { RegistrationStep(s.g, me, f, acts[i].kind); }
  }

  // -- The destructor of a callback --

  // Whether cb is being run by the thread at slot me, further down its stack.
  predicate RunsUnder(g: Shared, me: Slot, cb: Cb) {
    && g.drain.Active? && g.drain.slot.tid == me.tid && g.drain.slot.at < me.at
    && g.drain.pc.On? && g.drain.pc.cb == cb && g.drain.pc.stage.Running?
  }

  // How the destruction of cb may end.
  ghost predicate Destructed(g: Shared, g2: Shared, me: Slot, cb: Cb) {
    && cb in g.attached && g2.attached == g.attached - {cb} && Refs(g2) == Refs(g) - 1 && cb !in g2.list
    && if WasRun(g, cb) then cb in g.finished || RunsUnder(g, me, cb) else EndedAs(g2, cb, Unrun)
  }

  lemma DestructedUnrun(g: Shared, me: Slot, f: Frame)
    requires GInv(g) && At(g, me, f) && f.Deleting? && f.rpc.UnlockDrop?
    ensures Destructed(g, DeleteStep(g, me, f, Go).after, me, f.cb)
  {
    assert CbOk(g, f.cb);
  }

  lemma DestructedRun(g: Shared, me: Slot, f: Frame)
    requires GInv(g) && At(g, me, f) && f.Deleting? && f.rpc.Drop?
    ensures Destructed(g, DeleteStep(g, me, f, Go).after, me, f.cb)
  {
    assert CbOk(g, f.cb);
    assert RanOnceBySignaller(g, f.cb);
    assert WasRun(g, f.cb) by { assert (f.cb, g.signaller.value) in g.execs; }
  }

  lemma DestructorGoes(g: Shared, me: Slot, f: Frame, k: Kind)
    requires f.Deleting? && !DeleteStep(g, me, f, k).Blocked?
    ensures var o := DeleteStep(g, me, f, k);
      && o.after.execs == g.execs && o.after.tokens == g.tokens && (o.Goes? ==> o.after.attached == g.attached)
      && (o.Returns? ==> k == Go && (f.rpc.UnlockDrop? || f.rpc.Drop?))
  {
  }

  lemma DestructorReturns(g: Shared, me: Slot, f: Frame)
    requires GInv(g) && At(g, me, f) && f.Deleting? && (f.rpc.UnlockDrop? || f.rpc.Drop?)
    ensures Destructed(g, DeleteStep(g, me, f, Go).after, me, f.cb)
  {
    if f.rpc.UnlockDrop? { DestructedUnrun(g, me, f); } else { DestructedRun(g, me, f); }
  }

  /** A destructor returns in one of two ways: the callback was never run and was in the list until this call took it out;
      or it was run, and its run is over, or it is this thread that is running it. Either way it is no longer in the list
      and gives up one reference, its own. */
  lemma DestructorAnswers(states: seq<State>, tids: seq<Tid>, acts: seq<Action>, i: nat)
    requires StepsCall(states, tids, acts, i) && StackOf(states[i], tids[i]) != [] && Top(states[i], tids[i]).Deleting?
    ensures var s, t, s2 := states[i], tids[i], states[i + 1];
      var f, g, g2 := Top(s, t), s.g, s2.g;
      && g2.execs == g.execs && g2.tokens == g.tokens
      && if Returning(states, tids, i) then
           Destructed(g, g2, Slot(t, |StackOf(s, t)| - 1), f.cb)
         else StackOf(s2, t) != [] && Top(s2, t).Deleting? && Top(s2, t).cb == f.cb && g2.attached == g.attached
  {
    StepFacts(states, tids, acts, i);
    var s, t := states[i], tids[i];
    var me, f := Slot(t, |StackOf(s, t)| - 1), Top(s, t);
    DestructorGoes(s.g, me, f, acts[i].kind);
    if DeleteStep(s.g, me, f, acts[i].kind).Returns? { DestructorReturns(s.g, me, f); }
  }

  // -- The order of the callbacks --

  predicate Precedes(list: seq<Cb>, a: Cb, b: Cb) { exists p, q :: 0 <= p < q < |list| && list[p] == a && list[q] == b }

  // Taken from the list by the winner.
  predicate Taken(p: Phase) { p.Current? || p.Ran? || p == Gone(AfterRun) || p == Gone(Inside) }

  // Both have been in the list; if both still are, a comes before b, and if b was taken, a is gone from the list.
  predicate Ordered(g: Shared, a: Cb, b: Cb) {
    && a in g.phase && b in g.phase && !NeverListed(g.phase[a]) && !NeverListed(g.phase[b])
    && (a in g.list && b in g.list ==> Precedes(g.list, a, b))
    && (Taken(g.phase[b]) ==> a !in g.list)
  }

  predicate NeverListed(p: Phase) { p.Building? || p.Inlining? || p == Gone(Refused) || (p.Gone? && p.end.Inlined?) }

  lemma PrecedesBehind(x: Cb, rest: seq<Cb>, a: Cb, b: Cb)
    requires Precedes(rest, a, b)
    ensures Precedes([x] + rest, a, b)
  {
    var p, q :| 0 <= p < q < |rest| && rest[p] == a && rest[q] == b;
    assert ([x] + rest)[p + 1] == a && ([x] + rest)[q + 1] == b;
  }

  lemma PrecedesFirst(rest: seq<Cb>, a: Cb, b: Cb)
    requires b in rest
    ensures Precedes([a] + rest, a, b)
  {
    var k :| 0 <= k < |rest| && rest[k] == b;
    assert ([a] + rest)[0] == a && ([a] + rest)[k + 1] == b;
  }

  // a comes before b behind the first element, or is the first.
  lemma PrecedesCases(list: seq<Cb>, a: Cb, b: Cb)
    requires Precedes(list, a, b)
    ensures list != [] && b in list[1..] && (list[0] == a || Precedes(list[1..], a, b))
  {
    var p, q :| 0 <= p < q < |list| && list[p] == a && list[q] == b;
    assert list[1..][q - 1] == b;
    if p > 0 { assert list[1..][p - 1] == a; }
  }

  lemma {:induction false} RemoveKeepsOrder(list: seq<Cb>, c: Cb, a: Cb, b: Cb)
    requires NoDuplicates(list) && c in list && c != a && c != b && Precedes(list, a, b)
    ensures Precedes(Remove(list, c), a, b)
  {
    PrecedesCases(list, a, b);
    if list[0] != c {
      var rest := list[1..];
      assert list == [list[0]] + rest;
      RemoveFrom(rest, c);
      if list[0] == a {
        PrecedesFirst(Remove(rest, c), a, b);
      } else {
        RemoveKeepsOrder(rest, c, a, b);
        PrecedesBehind(list[0], Remove(rest, c), a, b);
      }
    }
  }

  // How one step of a call changes the list.
  ghost predicate ListMoves(g: Shared, g2: Shared, f: Frame) {
    || g2.list == g.list
    || (f.Adding? && g2.list == [f.cb] + g.list && f.cb in g.phase && g.phase[f.cb].Building?)
    || (f.Draining? && g.list != [] && g2.list == g.list[1..])
    || (f.Deleting? && f.cb in g.list && g2.list == Remove(g.list, f.cb) && f.cb in g2.phase && g2.phase[f.cb].Unlinked?)
  }

  lemma StepMovesList(g: Shared, me: Slot, f: Frame, k: Kind)
    requires At(g, me, f) && !Advance(g, me, f, k).Blocked?
    ensures ListMoves(g, Advance(g, me, f, k).after, f)
  {
  }

  // Only the first of the list is ever taken.
  lemma TakesFirst(g: Shared, me: Slot, f: Frame, k: Kind, cb: Cb)
    requires At(g, me, f) && !Advance(g, me, f, k).Blocked? && cb in g.phase && !Taken(g.phase[cb])
    requires var g2 := Advance(g, me, f, k).after; cb in g2.phase && Taken(g2.phase[cb])
    ensures g.list != [] && g.list[0] == cb && Advance(g, me, f, k).after.list == g.list[1..]
  {
    match f
    case Asking(_, _) => AskingTakesNone(g, me, f, k, cb);
    case Draining(_, _) =>
    case Adding(_, _, _, _) => AddingTakesNone(g, me, f, k, cb);
    case Deleting(_, _) => DeletingTakesNone(g, me, f, k, cb);
  }

  lemma AskingTakesNone(g: Shared, me: Slot, f: Frame, k: Kind, cb: Cb)
    requires f.Asking? && !AskStep(g, me, f, k).Blocked? && cb in g.phase
    ensures AskStep(g, me, f, k).after.phase == g.phase
  {
  }

  lemma AddingTakesNone(g: Shared, me: Slot, f: Frame, k: Kind, cb: Cb)
    requires At(g, me, f) && f.Adding? && !AddStep(g, me, f, k).Blocked? && cb in g.phase && !Taken(g.phase[cb])
    ensures var g2 := AddStep(g, me, f, k).after; cb in g2.phase && !Taken(g2.phase[cb])
  {
  }

  lemma DeletingTakesNone(g: Shared, me: Slot, f: Frame, k: Kind, cb: Cb)
    requires At(g, me, f) && f.Deleting? && !DeleteStep(g, me, f, k).Blocked? && cb in g.phase && !Taken(g.phase[cb])
    ensures var g2 := DeleteStep(g, me, f, k).after; cb in g2.phase && !Taken(g2.phase[cb])
  {
    assert CbOk(g, f.cb);
  }

  lemma OrderStep(g: Shared, me: Slot, f: Frame, k: Kind, a: Cb, b: Cb)
    requires At(g, me, f) && !Advance(g, me, f, k).Blocked? && Ordered(g, a, b)
    requires var g2 := Advance(g, me, f, k).after;
      a in g2.phase && b in g2.phase && !NeverListed(g2.phase[a]) && !NeverListed(g2.phase[b])
    ensures Ordered(Advance(g, me, f, k).after, a, b)
  {
    var g2 := Advance(g, me, f, k).after;
    StepMovesList(g, me, f, k);
    OrderKept(g, g2, f, a, b);
    if Taken(g2.phase[b]) && !Taken(g.phase[b]) {
      TakesFirst(g, me, f, k, b);
      FirstPrecedes(g.list, a, b);
    }
  }

  lemma FirstPrecedes(list: seq<Cb>, a: Cb, b: Cb)
    requires NoDuplicates(list) && list != [] && list[0] == b && (a in list && b in list ==> Precedes(list, a, b))
    ensures a !in list[1..]
  {
    assert a in list[1..] ==> a in list;
  }

  lemma OrderKept(g: Shared, g2: Shared, f: Frame, a: Cb, b: Cb)
    requires NoDuplicates(g.list) && Ordered(g, a, b) && ListMoves(g, g2, f)
    ensures a in g2.list && b in g2.list ==> Precedes(g2.list, a, b)
    ensures a in g2.list ==> a in g.list
  {
    if f.Adding? && g2.list == [f.cb] + g.list {
      if a in g.list && b in g.list {
        var p, q :| 0 <= p < q < |g.list| && g.list[p] == a && g.list[q] == b;
        assert g2.list[p + 1] == a && g2.list[q + 1] == b;
      }
    } else if f.Draining? && g.list != [] && g2.list == g.list[1..] {
      TailOf(g.list);
      if a in g2.list && b in g2.list {
        var p, q :| 0 <= p < q < |g.list| && g.list[p] == a && g.list[q] == b;
        assert g2.list[p - 1] == a && g2.list[q - 1] == b;
      }
    } else if f.Deleting? && f.cb in g.list && g2.list == Remove(g.list, f.cb) {
      RemoveFrom(g.list, f.cb);
      if a in g2.list && b in g2.list { RemoveKeepsOrder(g.list, f.cb, a, b); }
    }
  }

  lemma StaysListed(states: seq<State>, tids: seq<Tid>, acts: seq<Action>, i: nat, cb: Cb)
    requires Run(states, tids, acts) && i < |acts| && cb in states[i].g.phase && !NeverListed(states[i].g.phase[cb])
    ensures cb in states[i + 1].g.phase && !NeverListed(states[i + 1].g.phase[cb])
  {
    var me := StepGuarantees(states, tids, acts, i);
    assert CbMoves(states[i].g, states[i + 1].g, me, cb);
  }

  lemma CallKeepsOrder(states: seq<State>, tids: seq<Tid>, acts: seq<Action>, i: nat, a: Cb, b: Cb)
    requires StepsCall(states, tids, acts, i) && Ordered(states[i].g, a, b)
    ensures Ordered(states[i + 1].g, a, b)
  {
    StaysListed(states, tids, acts, i, a);
    StaysListed(states, tids, acts, i, b);
    StepFacts(states, tids, acts, i);
    var s, t := states[i], tids[i];
    OrderStep(s.g, Slot(t, |StackOf(s, t)| - 1), Top(s, t), acts[i].kind, a, b);
  }

  lemma ClientKeepsOrder(states: seq<State>, tids: seq<Tid>, acts: seq<Action>, i: nat, a: Cb, b: Cb)
    requires Run(states, tids, acts) && i < |acts| && !acts[i].Internal? && Ordered(states[i].g, a, b)
    ensures Ordered(states[i + 1].g, a, b)
  {
    assert StepAt(states, tids, acts, i);
  }

  lemma ListedOrdered(states: seq<State>, tids: seq<Tid>, acts: seq<Action>, i: nat, a: Cb, b: Cb)
    requires Run(states, tids, acts) && i < |states| && Precedes(states[i].g.list, a, b)
    ensures Ordered(states[i].g, a, b)
  {
    RunKeeps(states, tids, acts, i);
    assert CbOk(states[i].g, a) && CbOk(states[i].g, b);
  }

  /** Callbacks are run in the reverse order of their registration: of two callbacks in the list, the winner takes the
      later one only when the earlier one is no longer there. RegistrationAnswers puts the newest in front. */
  lemma {:induction false} RunsNewestFirst(states: seq<State>, tids: seq<Tid>, acts: seq<Action>, i: nat, j: nat, a: Cb,
                                           b: Cb)
    requires Run(states, tids, acts) && i <= j < |states| && Precedes(states[i].g.list, a, b)
    ensures Ordered(states[j].g, a, b)
  {
    if i == j {
      ListedOrdered(states, tids, acts, i, a, b);
    } else {
      RunsNewestFirst(states, tids, acts, i, j - 1, a, b);
      if acts[j - 1].Internal? {
        CallKeepsOrder(states, tids, acts, j - 1, a, b);
      } else {
        ClientKeepsOrder(states, tids, acts, j - 1, a, b);
      }
    }
  }

  // -- The last callback --

  // The winner has taken the last callback, and will not look at the list again.
  predicate LastTaken(g: Shared) {
    g.drain.Over? || (g.drain.Active? && (g.drain.pc.On? || g.drain.pc.Next?) && !g.drain.pc.more)
  }

  /** The winner that has taken the last callback does not take the lock again; one that left others there does. */
  lemma LastStep(states: seq<State>, tids: seq<Tid>, acts: seq<Action>, i: nat)
    requires StepsCall(states, tids, acts, i) && StackOf(states[i], tids[i]) != [] && Top(states[i], tids[i]).Draining?
    ensures var s, t, s2 := states[i], tids[i], states[i + 1];
      && (Top(s, t).dpc.Head? && s.g.list != [] ==> (LastTaken(s2.g) <==> s2.g.list == []))
      && (LastTaken(s.g) ==> LastTaken(s2.g) && (s2.g.owner == s.g.owner || s2.g.owner == None))
  {
    StepFacts(states, tids, acts, i);
    var s, t := states[i], tids[i];
    LastKept(s.g, Slot(t, |StackOf(s, t)| - 1), Top(s, t), acts[i].kind);
  }

  lemma LastKept(g: Shared, me: Slot, f: Frame, k: Kind)
    requires FrameOk(g, me, f) && f.Draining? && !DrainStep(g, me, f, k).Blocked?
    ensures var g2 := DrainStep(g, me, f, k).after;
      && (f.dpc.Head? && g.list != [] ==> (LastTaken(g2) <==> g2.list == []))
      && (LastTaken(g) ==> LastTaken(g2) && (g2.owner == g.owner || g2.owner == None))
  {
  }

  // -- No call is ever stuck --

  // The call polls: it spins on a lock that is taken and has read the word as it is now, or it is a destructor that waits
  // for another thread to finish running its callback.
  predicate Polls(g: Shared, f: Frame) {
    match f
    case Asking(_, seen) => g.owner.Some? && seen == Some(g.word) && g.wins == 0
    case Draining(_, pc) => g.owner.Some? && pc == Relock(Some(g.word))
    case Adding(_, _, _, pc) => g.owner.Some? && pc == Check(g.word) && g.wins == 0 && g.sources != {}
    case Deleting(cb, pc) => (g.owner.Some? && pc == Lock(Some(g.word))) || (pc.Wait? && cb !in g.finished)
  }

  // The call can take a step that changes something.
  predicate CanGo(g: Shared, me: Slot, f: Frame) {
    exists k :: Moves(g, me, f, k)
  }

  predicate Moves(g: Shared, me: Slot, f: Frame, k: Kind) {
    var o := Advance(g, me, f, k); o.Returns? || (o.Goes? && (o.after != g || o.frame != f))
  }

  lemma AskingMoves(g: Shared, me: Slot, f: Frame)
    requires GInv(g) && At(g, me, f) && f.Asking?
    ensures CanGo(g, me, f) <==> !Polls(g, f)
  {
    WordFacts(g);
    if f.seen == Some(g.word) {
      if Stopped(g) { assert Moves(g, me, f, Go); } else if !IsLocked(g.word) { assert Moves(g, me, f, Swap); }
    } else if f.seen.Some? && IsStopRequested(f.seen.value) {
      assert Moves(g, me, f, Go);
    } else {
      assert Moves(g, me, f, Read);
    }
  }

  lemma DrainingMoves(g: Shared, me: Slot, f: Frame)
    requires GInv(g) && At(g, me, f) && f.Draining? && !RunsClientCode(f)
    ensures CanGo(g, me, f) <==> !Polls(g, f)
  {
    WordFacts(g);
    if f.dpc.Relock? {
      if f.dpc.lockWord != Some(g.word) { assert Moves(g, me, f, Read); }
      else if !IsLocked(g.word) { assert Moves(g, me, f, Swap); }
    } else {
      DrainingGoes(g, me, f);
    }
  }

  lemma DrainingGoes(g: Shared, me: Slot, f: Frame)
    requires f.Draining? && !RunsClientCode(f) && !f.dpc.Relock?
    ensures Moves(g, me, f, Go)
  {
  }

  lemma AddingMoves(g: Shared, me: Slot, f: Frame)
    requires GInv(g) && At(g, me, f) && f.Adding? && !RunsClientCode(f)
    ensures CanGo(g, me, f) <==> !Polls(g, f)
  {
    WordFacts(g);
    match f.apc
    case Look => assert Moves(g, me, f, Read);
    case Check(seen) => CheckMoves(g, me, f);
    case Push => assert Moves(g, me, f, Go);
    case Publishing => assert Moves(g, me, f, Go);
  }

  lemma CheckMoves(g: Shared, me: Slot, f: Frame)
    requires GInv(g) && At(g, me, f) && f.Adding? && f.apc.Check?
    ensures CanGo(g, me, f) <==> !Polls(g, f)
  {
    WordFacts(g);
    if IsStopRequested(f.apc.seen) || !IsStopRequestable(f.apc.seen) {
      assert Moves(g, me, f, Go);
    } else if f.apc.seen != g.word {
      assert Moves(g, me, f, Read);
    } else if !IsLocked(g.word) {
      assert Moves(g, me, f, Swap);
    }
  }

  lemma DeletingMoves(g: Shared, me: Slot, f: Frame)
    requires GInv(g) && At(g, me, f) && f.Deleting?
    ensures CanGo(g, me, f) <==> !Polls(g, f)
  {
    WordFacts(g);
    if f.rpc.Lock? {
      if f.rpc.lockWord != Some(g.word) { assert Moves(g, me, f, Read); }
      else if !IsLocked(g.word) { assert Moves(g, me, f, Swap); }
    } else if !f.rpc.Wait? || f.cb in g.finished {
      assert Moves(g, me, f, Go);
    }
  }

  lemma PollsIff(g: Shared, me: Slot, f: Frame)
    requires GInv(g) && At(g, me, f) && !RunsClientCode(f)
    ensures CanGo(g, me, f) <==> !Polls(g, f)
  {
    match f
    case Asking(_, _) => AskingMoves(g, me, f);
    case Draining(_, _) => DrainingMoves(g, me, f);
    case Adding(_, _, _, _) => AddingMoves(g, me, f);
    case Deleting(_, _) => DeletingMoves(g, me, f);
  }

  // Thread t is in a call of the protocol, not in client code.
  predicate InCall(s: State, t: Tid) { StackOf(s, t) != [] && !RunsClientCode(Top(s, t)) }

  // A step of thread t's call leads to another state.
  ghost predicate CanStep(s: State, t: Tid) { exists k, s2 :: Step(s, t, Internal(k), s2) && s2 != s }

  lemma CanStepIff(s: State, t: Tid)
    requires Inv(s) && InCall(s, t)
    ensures CanStep(s, t) <==> !Polls(s.g, Top(s, t))
  {
    var stack := StackOf(s, t);
    var me, f := Slot(t, |stack| - 1), Top(s, t);
    TopFacts(s, t);
    PollsIff(s.g, me, f);
    if k :| Moves(s.g, me, f, k) {
      var s2 := match Advance(s.g, me, f, k)
        case Goes(g2, f2) => State(g2, s.stacks[t := stack[|stack| - 1 := f2]])
        case Returns(g2) => State(g2, s.stacks[t := stack[..|stack| - 1]]);
      assert Step(s, t, Internal(k), s2);
      assert StackOf(s2, t) != stack || s2.g != s.g;
    }
    if k, s2 :| Step(s, t, Internal(k), s2) && s2 != s {
      assert stack[|stack| - 1 := f] == stack && s.stacks[t := stack] == s.stacks;
      assert Moves(s.g, me, f, k);
    }
  }

  /** In every reachable state a call can take a step that changes something, unless it polls: it has read the word as it
      is now and the lock is taken, or it waits for another thread to finish running its callback. */
  lemma StuckIffPolling(states: seq<State>, tids: seq<Tid>, acts: seq<Action>, i: nat, t: Tid)
    requires Run(states, tids, acts) && i < |states| && InCall(states[i], t)
    ensures CanStep(states[i], t) <==> !Polls(states[i].g, Top(states[i], t))
  {
    RunKeeps(states, tids, acts, i);
    CanStepIff(states[i], t);
  }

  // The thread that holds the lock, or else the one that runs a callback, or else any.
  lemma SomeoneGoes(s: State, t: Tid) returns (u: Tid)
    requires Inv(s) && InCall(s, t) && forall u :: StackOf(s, u) != [] ==> InCall(s, u)
    ensures InCall(s, u) && !Polls(s.g, Top(s, u))
  {
    if s.g.owner.Some? {
      u := s.g.owner.value.tid;
      assert PlaceOk(s, u, s.g.owner.value.at);
    } else if s.g.drain.Active? {
      u := s.g.drain.slot.tid;
      assert PlaceOk(s, u, s.g.drain.slot.at);
      TopFacts(s, u);
    } else {
      u := t;
      TopFacts(s, t);
      if Top(s, t).Deleting? { assert CbOk(s.g, Top(s, t).cb); }
    }
  }

  /** The protocol cannot deadlock: in every reachable state in which calls are in progress and no thread is executing
      client code, some call can take a step that changes something. */
  lemma DeadlockFree(states: seq<State>, tids: seq<Tid>, acts: seq<Action>, i: nat, t: Tid)
    requires Run(states, tids, acts) && i < |states| && InCall(states[i], t)
    requires forall u :: StackOf(states[i], u) != [] ==> InCall(states[i], u)
    ensures exists u :: CanStep(states[i], u)
  {
    RunKeeps(states, tids, acts, i);
    var u := SomeoneGoes(states[i], t);
    CanStepIff(states[i], u);
  }
}
