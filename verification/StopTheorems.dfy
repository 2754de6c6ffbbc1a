/** What the invariant means: the promises of the stop-state protocol over all interleavings and all runs. */
module StopTheorems {
  import opened StopWord
  import opened Wrappers
  import opened StopProtocol
  import opened StopInvariant
  import opened StopSteps
  import opened StopRuns

  // Step i of a run: thread tids[i] takes step acts[i], and the counts still fit their fields.
  ghost predicate StepAt(states: seq<State>, tids: seq<Tid>, acts: seq<Action>, i: nat) {
    i + 1 < |states| && i < |tids| && i < |acts| ==>
      Step(states[i], tids[i], acts[i], states[i + 1]) && CountsFit(states[i + 1])
  }

  /** A run: states[i] becomes states[i + 1] when thread tids[i] takes step acts[i]. */
  ghost predicate Run(states: seq<State>, tids: seq<Tid>, acts: seq<Action>) {
    && |states| == |tids| + 1 == |acts| + 1
    && states[0] == INITIAL
    && forall i: nat :: StepAt(states, tids, acts, i)
  }

  lemma StepKeeps(s: State, t: Tid, a: Action, s2: State)
    requires Inv(s) && Step(s, t, a, s2) && CountsFit(s2)
    ensures Inv(s2)
  {
    if a.Internal? { InternalKeeps(s, t, a.kind, s2); } else { ClientKeeps(s, t, a, s2); }
  }

  lemma {:induction false} RunKeeps(states: seq<State>, tids: seq<Tid>, acts: seq<Action>, i: nat)
    requires Run(states, tids, acts) && i < |states|
    ensures Inv(states[i])
  {
    if i == 0 {
      InitialOk();
    } else {
      RunKeeps(states, tids, acts, i - 1);
      assert StepAt(states, tids, acts, i - 1);
      StepKeeps(states[i - 1], tids[i - 1], acts[i - 1], states[i]);
    }
  }

  // -- The word and the lock --

  /** In every reachable state the word packs the stop flag, the lock bit and the two reference counts. */
  lemma WordPacksFields(states: seq<State>, tids: seq<Tid>, acts: seq<Action>, i: nat)
    requires Run(states, tids, acts) && i < |states|
    ensures var g := states[i].g;
      && g.word == Bit(Stopped(g)) + 2 * Bit(g.owner.Some?) + 4 * (|g.tokens| + |g.attached|) + SOURCE_REF * |g.sources|
      && IsStopRequested(g.word) == (g.wins == 1)
      && (g.word % SOURCE_REF) / TOKEN_REF == |g.tokens| + |g.attached|
      && g.word / SOURCE_REF == |g.sources|
  {
    RunKeeps(states, tids, acts, i);
    var g := states[i].g;
    FieldsReadBack(Stopped(g), g.owner.Some?, Refs(g), |g.sources|);
  }

  predicate LocksAt(s: State, t: Tid, i: nat) { i < |StackOf(s, t)| && HoldsLock(StackOf(s, t)[i]) }

  /** At most one call holds the lock, and the lock bit is set exactly while one does. */
  lemma MutualExclusion(states: seq<State>, tids: seq<Tid>, acts: seq<Action>, n: nat)
    requires Run(states, tids, acts) && n < |states|
    ensures forall t, i: nat, u, j: nat | LocksAt(states[n], t, i) && LocksAt(states[n], u, j)
              :: t == u && i == j
    ensures IsLocked(states[n].g.word) <==> exists t, i: nat :: LocksAt(states[n], t, i)
  {
    RunKeeps(states, tids, acts, n);
    var s := states[n];
    WordFacts(s.g);
    forall t, i: nat | LocksAt(s, t, i) ensures s.g.owner == Some(Slot(t, i)) {
      assert PlaceOk(s, t, i);
    }
    if s.g.owner.Some? {
      var slot := s.g.owner.value;
      assert PlaceOk(s, slot.tid, slot.at);
      assert LocksAt(s, slot.tid, slot.at);
    }
  }

  // -- Lifetime of callback objects --

  predicate Alive(g: Shared, cb: Cb) { cb in g.phase && !g.phase[cb].Gone? }

  // The callback objects whose memory a step reads, writes or starts to execute.
  function Touched(g: Shared, f: Frame, k: Kind): set<Cb> {
    match f
    case Asking(_, _) => {}
    case Draining(_, pc) =>
      (match pc
       case Head => (if g.list == [] then {} else {g.list[0]}) + (if |g.list| > 1 then {g.list[1]} else {})
       case On(cb, _, stage) => if stage.Unlocking? || stage.Returned? || stage.Running? then {} else {cb}
       case _ => {})
    case Adding(_, cb, _, pc) =>
      if pc.Check? then (if IsStopRequested(pc.seen) then {cb} else {})
      else if pc.Push? then {cb} + (if g.list == [] then {} else {g.list[0]}) else {}
    case Deleting(cb, pc) =>
      if pc.Body? then {cb} + (if cb in g.list then set x | x in g.list else {})
      else if pc.Self? || pc.Wait? then {cb} else {}
  }

  function TouchedBy(s: State, t: Tid, k: Kind): set<Cb> {
    var stack := StackOf(s, t);
    if stack == [] then {} else Touched(s.g, stack[|stack| - 1], k)
  }

  /** No step ever touches a callback object that was destroyed: neither the list surgery of any thread,
      nor the signalling thread after a callback destroyed itself, nor the destructor's own wait. */
  lemma NoTouchAfterDestruction(states: seq<State>, tids: seq<Tid>, acts: seq<Action>, i: nat)
    requires Run(states, tids, acts) && i < |acts| && acts[i].Internal?
    ensures forall cb | cb in TouchedBy(states[i], tids[i], acts[i].kind) :: Alive(states[i].g, cb)
  {
    RunKeeps(states, tids, acts, i);
    var s, t := states[i], tids[i];
    assert StepAt(states, tids, acts, i);
    TopFacts(s, t);
    forall cb | cb in TouchedBy(s, t, acts[i].kind) ensures Alive(s.g, cb) {
      assert CbOk(s.g, cb);
    }
  }

  // Whether a call will still touch or is still running a callback object.
  predicate DealsWith(f: Frame, cb: Cb) {
    match f
    case Draining(_, pc) => pc.On? && pc.cb == cb
    case Adding(_, c, _, _) => c == cb
    case Deleting(c, _) => c == cb
    case _ => false
  }

  predicate DealsAt(s: State, u: Tid, j: nat, cb: Cb) { j < |StackOf(s, u)| && DealsWith(StackOf(s, u)[j], cb) }

  // Only a destructor, or a constructor that ends without a registration, ends an object's life.
  predicate Destroyer(f: Frame, cb: Cb) {
    (f.Deleting? && f.cb == cb && (f.rpc.UnlockDrop? || f.rpc.Drop?)) ||
    (f.Adding? && f.cb == cb && (f.apc.Check? || f.apc.Inline?))
  }

  lemma WhoDestroys(g: Shared, me: Slot, f: Frame, k: Kind, cb: Cb)
    requires FrameOk(g, me, f) && CbOk(g, cb) && !Advance(g, me, f, k).Blocked?
    requires Alive(g, cb) && !Alive(Advance(g, me, f, k).after, cb)
    ensures Destroyer(f, cb)
    ensures f.Deleting? && g.phase[cb] == Current ==> Advance(g, me, f, k).after.phase[cb] == Gone(Inside)
  {
  }

  // What the others know when frame f at slot me destroys the object.
  lemma OthersKnow(g: Shared, me: Slot, f: Frame, you: Slot, f2: Frame, cb: Cb)
    requires GInv(g) && FrameOk(g, me, f) && FrameOk(g, you, f2) && you != me
    requires Destroyer(f, cb) && DealsWith(f2, cb)
    ensures f.Deleting? && f.rpc.Drop? && DestroysItself(g, me, cb) && you == g.drain.slot && RunsClientCode(f2)
  {
    assert CbOk(g, cb);
  }

  // The callback was destroyed from inside itself.
  predicate DestroyedInside(g: Shared, cb: Cb) { cb in g.phase && g.phase[cb] == Gone(Inside) }

  // Only a step of a call in progress destroys an object.
  lemma DestroyingStep(states: seq<State>, tids: seq<Tid>, acts: seq<Action>, n: nat, cb: Cb)
    requires Run(states, tids, acts) && n < |acts|
    requires Alive(states[n].g, cb) && !Alive(states[n + 1].g, cb)
    ensures var s, t, stack := states[n], tids[n], StackOf(states[n], tids[n]);
      acts[n].Internal? && stack != [] &&
      var o := Advance(s.g, Slot(t, |stack| - 1), stack[|stack| - 1], acts[n].kind);
      !o.Blocked? && o.after == states[n + 1].g
  {
    assert StepAt(states, tids, acts, n);
    assert acts[n].Internal?;
  }

  lemma TheDestroyer(states: seq<State>, tids: seq<Tid>, acts: seq<Action>, n: nat, cb: Cb)
    requires Run(states, tids, acts) && n < |acts|
    requires Alive(states[n].g, cb) && !Alive(states[n + 1].g, cb)
    ensures var s, t := states[n], tids[n];
      StackOf(s, t) != [] && var f := StackOf(s, t)[|StackOf(s, t)| - 1];
      Destroyer(f, cb) && (f.Deleting? && s.g.phase[cb] == Current ==> DestroyedInside(states[n + 1].g, cb))
  {
    RunKeeps(states, tids, acts, n);
    DestroyingStep(states, tids, acts, n, cb);
    TopFacts(states[n], tids[n]);
    var top := |StackOf(states[n], tids[n])| - 1;
    assert CbOk(states[n].g, cb);
    WhoDestroys(states[n].g, Slot(tids[n], top), StackOf(states[n], tids[n])[top], acts[n].kind, cb);
  }

  lemma OtherPlace(s: State, t: Tid, cb: Cb, u: Tid, j: nat)
    requires Inv(s) && StackOf(s, t) != [] && Destroyer(StackOf(s, t)[|StackOf(s, t)| - 1], cb)
    requires DealsAt(s, u, j, cb) && !(u == t && j == |StackOf(s, t)| - 1)
    ensures var f := StackOf(s, t)[|StackOf(s, t)| - 1];
      && u == t && RunsClientCode(StackOf(s, u)[j]) && s.g.removedFlag && f.Deleting?
      && cb in s.g.phase && s.g.phase[cb] == Current
  {
    TopFacts(s, t);
    var top := |StackOf(s, t)| - 1;
    assert PlaceOk(s, u, j);
    OthersKnow(s.g, Slot(t, top), StackOf(s, t)[top], Slot(u, j), StackOf(s, u)[j], cb);
  }

  /** When an object is destroyed, every call that deals with it is on the destroying thread: the call that
      destroys it, and if the callback destroyed itself also the call below that is running it, which has been
      told. */
  lemma DestroyedAlone(states: seq<State>, tids: seq<Tid>, acts: seq<Action>, n: nat, cb: Cb)
    requires Run(states, tids, acts) && n < |acts|
    requires Alive(states[n].g, cb) && !Alive(states[n + 1].g, cb)
    ensures forall u, j: nat | DealsAt(states[n], u, j, cb) ::
      && u == tids[n]
      && (j == |StackOf(states[n], u)| - 1 ||
          (RunsClientCode(StackOf(states[n], u)[j]) && states[n].g.removedFlag &&
           DestroyedInside(states[n + 1].g, cb)))
  {
    RunKeeps(states, tids, acts, n);
    var s, t, s2 := states[n], tids[n], states[n + 1];
    TheDestroyer(states, tids, acts, n, cb);
    forall u, j: nat | DealsAt(s, u, j, cb) && !(u == t && j == |StackOf(s, t)| - 1)
      ensures u == t && RunsClientCode(StackOf(s, u)[j]) && s.g.removedFlag && DestroyedInside(s2.g, cb)
    {
      OtherPlace(s, t, cb, u, j);
    }
  }

  /** Destroyed is for ever, so NoTouchAfterDestruction covers the whole rest of the run. */
  lemma {:induction false} GoneForever(states: seq<State>, tids: seq<Tid>, acts: seq<Action>, i: nat, j: nat, cb: Cb)
    requires Run(states, tids, acts) && i <= j < |states|
    requires cb in states[i].g.phase && states[i].g.phase[cb].Gone?
    ensures cb in states[j].g.phase && states[j].g.phase[cb] == states[i].g.phase[cb]
  {
    if i < j {
      GoneForever(states, tids, acts, i, j - 1, cb);
      var me := StepGuarantees(states, tids, acts, j - 1);
      assert CbMoves(states[j - 1].g, states[j].g, me, cb);
    }
  }

  lemma StepGuarantees(states: seq<State>, tids: seq<Tid>, acts: seq<Action>, i: nat)
    returns (me: Slot)
    requires Run(states, tids, acts) && i < |acts|
    ensures Guarantee(states[i].g, states[i + 1].g, me)
  {
    RunKeeps(states, tids, acts, i);
    me := Slot(tids[i], |StackOf(states[i], tids[i])|);
    assert StepAt(states, tids, acts, i);
    if acts[i].Internal? {
      me := Slot(tids[i], |StackOf(states[i], tids[i])| - 1);
      InternalKeeps(states[i], tids[i], acts[i].kind, states[i + 1]);
    } else {
      ClientKeeps(states[i], tids[i], acts[i], states[i + 1]);
    }
  }
}
