/** The atomic markable reference: compare-and-swap on a (next, marked) pair, built from one atomic pointer to an
    immutable cell. When all threads use only CAS and reads it is linearizable: every run of the load / compare / exchange
    code is explained by a run in which each call takes effect in one atomic step between its call and its return. */
module MarkableReference {
  import opened Wrappers

  type Ref = nat
  type Tid = nat

  datatype Pair = Pair(next: Ref, marked: bool)

  // A read answers the pair; getReference and get hand on the parts of it they need.
  datatype Op = Cas(expected: Pair, desired: Pair) | Read

  datatype Result = Swapped(ok: bool) | Seen(pair: Pair)

  // -- The code: cells are allocated and never reused, so a cell's address is its index --

  datatype Local =
    | Idle
    | Called(op: Op)               // about to load the cell pointer
    | Loaded(op: Op, cell: nat)    // about to compare the loaded cell's contents
    | Ready(op: Op, cell: nat)     // about to exchange the cell pointer
    | Answered(op: Op, result: Result)

  datatype State = State(cells: seq<Pair>, cur: nat, threads: map<Tid, Local>)

  function LocalOf(s: State, t: Tid): Local { if t in s.threads then s.threads[t] else Idle }

  datatype Step = Call(t: Tid, op: Op) | Load(t: Tid) | Compare(t: Tid) | Exchange(t: Tid) | Return(t: Tid)

  predicate Wf(s: State) {
    && s.cur < |s.cells|
    && forall t | t in s.threads && (s.threads[t].Loaded? || s.threads[t].Ready?) :: s.threads[t].cell < |s.cells|
  }

  // The loaded pair alone decides: the call is a read, or the pair differs from the expected one or is the desired one.
  predicate ShortCircuits(pair: Pair, op: Op) { op.Read? || pair != op.expected || pair == op.desired }

  function Answer(pair: Pair, op: Op): Result { if op.Read? then Seen(pair) else Swapped(pair == op.expected) }

  function Next(s: State, step: Step): Option<State>
    requires Wf(s)
  {
    var t := step.t;
    var me := LocalOf(s, t);
    match step
    case Call(_, op) => if me.Idle? then Some(s.(threads := s.threads[t := Called(op)])) else None
    case Load(_) => if me.Called? then Some(s.(threads := s.threads[t := Loaded(me.op, s.cur)])) else None
    case Compare(_) =>
      if !me.Loaded? then None
      else if ShortCircuits(s.cells[me.cell], me.op) then
        Some(s.(threads := s.threads[t := Answered(me.op, Answer(s.cells[me.cell], me.op))]))
      else Some(s.(threads := s.threads[t := Ready(me.op, me.cell)]))
    case Exchange(_) =>
      if !me.Ready? || me.op.Read? then None
      else
        var answered := Answered(me.op, Swapped(s.cur == me.cell));
        var s1 := s.(cells := s.cells + [me.op.desired], threads := s.threads[t := answered]);
        Some(if s.cur == me.cell then s1.(cur := |s.cells|) else s1)
    case Return(_) => if me.Answered? then Some(s.(threads := s.threads[t := Idle])) else None
  }

  function Initial(pair: Pair): State { State([pair], 0, map[]) }

  function Run(s: State, steps: seq<Step>): (r: Option<State>)
    requires Wf(s)
    ensures r.Some? ==> Wf(r.value)
    decreases |steps|
  {
    if steps == [] then Some(s)
    else match Run(s, steps[..|steps| - 1])
      case None => None
      case Some(s1) => Next(s1, steps[|steps| - 1])
  }

  // -- The specification: a call commits in one atomic step --

  datatype ALocal = AIdle | Pending(op: Op) | Done(op: Op, result: Result)

  datatype Atomic = Atomic(pair: Pair, threads: map<Tid, ALocal>)

  datatype AStep = ACall(t: Tid, op: Op) | Commit(t: Tid) | AReturn(t: Tid)

  function ALocalOf(a: Atomic, t: Tid): ALocal { if t in a.threads then a.threads[t] else AIdle }

  function ANext(a: Atomic, step: AStep): Option<Atomic> {
    var t := step.t;
    var me := ALocalOf(a, t);
    match step
    case ACall(_, op) => if me.AIdle? then Some(a.(threads := a.threads[t := Pending(op)])) else None
    case Commit(_) =>
      if !me.Pending? then None
      else if me.op.Read? then Some(a.(threads := a.threads[t := Done(me.op, Seen(a.pair))]))
      else if a.pair == me.op.expected then Some(Atomic(me.op.desired, a.threads[t := Done(me.op, Swapped(true))]))
      else Some(a.(threads := a.threads[t := Done(me.op, Swapped(false))]))
    case AReturn(_) => if me.Done? then Some(a.(threads := a.threads[t := AIdle])) else None
  }

  function ARun(a: Atomic, steps: seq<AStep>): Option<Atomic>
    decreases |steps|
  {
    if steps == [] then Some(a)
    else match ANext(a, steps[0])
      case None => None
      case Some(a1) => ARun(a1, steps[1..])
  }

  // -- What a client sees: calls, and returns with their results --

  datatype Event = Calls(t: Tid, op: Op) | Returns(t: Tid, op: Op, result: Result)

  // What a client sees of one step.
  function Visible(s: State, step: Step): seq<Event>
    requires Wf(s) && Next(s, step).Some?
  {
    match step
    case Call(t, op) => [Calls(t, op)]
    case Return(t) => [Returns(t, LocalOf(s, t).op, LocalOf(s, t).result)]
    case _ => []
  }

  function Events(s: State, steps: seq<Step>): seq<Event>
    requires Wf(s) && Run(s, steps).Some?
    decreases |steps|
  {
    if steps == [] then []
    else
      var before, last := steps[..|steps| - 1], steps[|steps| - 1];
      var s1 := Run(s, before).value;
      Events(s, before) + Visible(s1, last)
  }

  // What a client sees of one atomic step.
  function AVisible(a: Atomic, step: AStep): seq<Event>
    requires ANext(a, step).Some?
  {
    match step
    case ACall(t, op) => [Calls(t, op)]
    case AReturn(t) => [Returns(t, ALocalOf(a, t).op, ALocalOf(a, t).result)]
    case Commit(_) => []
  }

  function AEvents(a: Atomic, steps: seq<AStep>): seq<Event>
    requires ARun(a, steps).Some?
    decreases |steps|
  {
    if steps == [] then []
    else
      AVisible(a, steps[0]) + AEvents(ANext(a, steps[0]).value, steps[1..])
  }

  // -- The refinement mapping --

  // A call that found the expected pair has committed once its cell is no longer current: the pair changed
  // right after the load, whatever it is now.
  function AbsLocal(cells: seq<Pair>, cur: nat, me: Local): ALocal
    requires me.Loaded? || me.Ready? ==> me.cell < |cells|
  {
    match me
    case Idle => AIdle
    case Called(op) => Pending(op)
    case Loaded(op, cell) => AbsCompared(cells[cell], cell == cur, op)
    case Ready(op, cell) => AbsCompared(cells[cell], cell == cur, op)
    case Answered(op, result) => Done(op, result)
  }

  function AbsCompared(pair: Pair, isCurrent: bool, op: Op): ALocal {
    if ShortCircuits(pair, op) then Done(op, Answer(pair, op))
    else if isCurrent then Pending(op)
    else Done(op, Swapped(false))
  }

  function Abs(s: State): Atomic
    requires Wf(s)
  {
    Atomic(s.cells[s.cur], map t | t in s.threads :: AbsLocal(s.cells, s.cur, s.threads[t]))
  }

  // Calls in Ready found the expected pair, and not the desired one.
  predicate Inv(s: State) {
    && Wf(s)
    && forall t | t in s.threads && s.threads[t].Ready? :: !ShortCircuits(s.cells[s.threads[t].cell], s.threads[t].op)
  }

  lemma AppendRun(a: Atomic, xs: seq<AStep>, ys: seq<AStep>)
    requires ARun(a, xs).Some?
    ensures ARun(a, xs + ys) == ARun(ARun(a, xs).value, ys)
    ensures ARun(a, xs + ys).Some? ==> AEvents(a, xs + ys) == AEvents(a, xs) + AEvents(ARun(a, xs).value, ys)
    decreases |xs|
  {
    if xs == [] {
      assert xs + ys == ys;
    } else {
      assert (xs + ys)[1..] == xs[1..] + ys;
      AppendRun(ANext(a, xs[0]).value, xs[1..], ys);
    }
  }

  // The state after all calls of a set have failed.
  function AllFail(a: Atomic, ts: set<Tid>): Atomic
    requires forall t | t in ts :: t in a.threads && a.threads[t].Pending?
  {
    a.(threads := map t | t in a.threads :: if t in ts then Done(a.threads[t].op, Swapped(false)) else a.threads[t])
  }

  // All calls of a set commit in some order, and fail, because the pair is not the one they expect.
  lemma {:induction false} CommitAll(a: Atomic, ts: set<Tid>) returns (steps: seq<AStep>)
    requires forall t | t in ts ::
      t in a.threads && a.threads[t].Pending? && a.threads[t].op.Cas? && a.threads[t].op.expected != a.pair
    ensures ARun(a, steps) == Some(AllFail(a, ts))
    ensures AEvents(a, steps) == []
    decreases ts
  {
    if ts == {} {
      steps := [];
      assert AllFail(a, ts).threads == a.threads;
    } else {
      var t :| t in ts;
      var a1 := a.(threads := a.threads[t := Done(a.threads[t].op, Swapped(false))]);
      assert ANext(a, Commit(t)) == Some(a1);
      var rest := CommitAll(a1, ts - {t});
      steps := [Commit(t)] + rest;
      assert steps[1..] == rest;
      assert AllFail(a1, ts - {t}).threads == AllFail(a, ts).threads;
    }
  }

  ghost predicate Explains(s: State, step: Step, s2: State, steps: seq<AStep>)
    requires Inv(s) && Next(s, step) == Some(s2) && Inv(s2)
  {
    ARun(Abs(s), steps) == Some(Abs(s2)) && AEvents(Abs(s), steps) == Visible(s, step)
  }

  lemma OneStep(a: Atomic, step: AStep)
    requires ANext(a, step).Some?
    ensures ARun(a, [step]) == ANext(a, step)
    ensures AEvents(a, [step]) == AVisible(a, step)
  {
    assert [step][1..] == [];
  }

  lemma NextKeepsInv(s: State, step: Step)
    requires Inv(s) && Next(s, step).Some?
    ensures Inv(Next(s, step).value)
  {
  }

  /** Forward simulation: each step of the code is a sequence of atomic steps with the same calls and returns. */
  lemma StepRefines(s: State, step: Step) returns (steps: seq<AStep>)
    requires Inv(s) && Next(s, step).Some?
    ensures Inv(Next(s, step).value) && Explains(s, step, Next(s, step).value, steps)
  {
    NextKeepsInv(s, step);
    var s2 := Next(s, step).value;
    var t := step.t;
    var a := Abs(s);
    match step
    case Call(_, op) =>
      steps := [ACall(t, op)];
      OneStep(a, steps[0]);
      assert Abs(s2).threads == a.threads[t := Pending(op)];
    case Return(_) =>
      steps := [AReturn(t)];
      OneStep(a, steps[0]);
      assert Abs(s2).threads == a.threads[t := AIdle];
    case Load(_) =>
      var op := LocalOf(s, t).op;
      if ShortCircuits(s.cells[s.cur], op) {
        steps := [Commit(t)];
        OneStep(a, steps[0]);
        assert Abs(s2).threads == a.threads[t := Done(op, Answer(a.pair, op))];
      } else {
        steps := [];
        assert Abs(s2).threads == a.threads;
      }
    case Compare(_) =>
      steps := [];
      assert Abs(s2).threads == a.threads;
    case Exchange(_) =>
      steps := ExchangeRefines(s, t);
  }

  // A successful exchange commits its own call, and right after it, as failures, all calls that found the old
  // pair in the old cell.
  lemma ExchangeRefines(s: State, t: Tid) returns (steps: seq<AStep>)
    requires Inv(s) && LocalOf(s, t).Ready?
    ensures Inv(Next(s, Exchange(t)).value) && Explains(s, Exchange(t), Next(s, Exchange(t)).value, steps)
  {
    NextKeepsInv(s, Exchange(t));
    var s2 := Next(s, Exchange(t)).value;
    var a, me := Abs(s), LocalOf(s, t);
    if s.cur != me.cell {
      steps := [];
      assert Abs(s2).threads == a.threads;
    } else {
      OneStep(a, Commit(t));
      var a1 := ANext(a, Commit(t)).value;
      ExchangeFails(s, t);
      var fails := CommitAll(a1, Overtaken(s, t));
      steps := [Commit(t)] + fails;
      AppendRun(a, [Commit(t)], fails);
    }
  }

  // After the exchange exactly the overtaken calls have failed.
  lemma ExchangeFails(s: State, t: Tid)
    requires Inv(s) && LocalOf(s, t).Ready? && LocalOf(s, t).cell == s.cur
    ensures ANext(Abs(s), Commit(t)).Some? && Next(s, Exchange(t)).Some? && Wf(Next(s, Exchange(t)).value)
    ensures var a1, ts := ANext(Abs(s), Commit(t)).value, Overtaken(s, t);
      && (forall u | u in ts ::
            u in a1.threads && a1.threads[u].Pending? && a1.threads[u].op.Cas? && a1.threads[u].op.expected != a1.pair)
      && AllFail(a1, ts) == Abs(Next(s, Exchange(t)).value)
  {
    NextKeepsInv(s, Exchange(t));
    assert AllFail(ANext(Abs(s), Commit(t)).value, Overtaken(s, t)).threads == Abs(Next(s, Exchange(t)).value).threads;
  }

  // The other calls that loaded the current cell and found there the pair they expect.
  function Overtaken(s: State, t: Tid): set<Tid>
    requires Wf(s)
  {
    set u | u in s.threads && u != t && (s.threads[u].Loaded? || s.threads[u].Ready?) &&
            s.threads[u].cell == s.cur && !ShortCircuits(s.cells[s.cur], s.threads[u].op)
  }

  /** Linearizability: every run of the code, from a fresh reference, is explained by a run of the atomic
      specification with the same calls, the same returns and the same results in the same order, and both
      end with the same pair. */
  lemma {:induction false} Linearizable(pair: Pair, steps: seq<Step>) returns (atomic: seq<AStep>)
    requires Run(Initial(pair), steps).Some?
    ensures Inv(Run(Initial(pair), steps).value)
    ensures ARun(Atomic(pair, map[]), atomic) == Some(Abs(Run(Initial(pair), steps).value))
    ensures AEvents(Atomic(pair, map[]), atomic) == Events(Initial(pair), steps)
    decreases |steps|
  {
    if steps == [] {
      atomic := [];
      assert Abs(Initial(pair)).threads == map[];
    } else {
      var before, last := steps[..|steps| - 1], steps[|steps| - 1];
      var prefix := Linearizable(pair, before);
      var s1 := Run(Initial(pair), before).value;
      var suffix := StepRefines(s1, last);
      AppendRun(Atomic(pair, map[]), prefix, suffix);
      atomic := prefix + suffix;
    }
  }
}
