/** The skip-list queue under concurrency: any number of threads run insert, remove and removeMin, one atomic access a
    step. Links change only through the compare-and-swap of module MarkableReference. */
module SkipListSteps {
  import opened SkipListNodes
  import opened Wrappers

  type Tid = nat

  // What a call of findNode is for.
  datatype Goal = ToInsert(top: nat) | ToLink(node: Id, level: nat) | ToRemove | ToFinish

  // The arrays findNode fills.
  datatype Path = Path(preds: map<nat, Id>, succs: map<nat, Id>)

  // A traversal of findNode at level i.
  datatype Cursor = Cursor(prio: int, goal: Goal, i: nat, pred: Id, path: Path)

  datatype Pc =
    | Idle
    | Begin(prio: int, goal: Goal, path: Path)         // findNode starts over at the head
    | AtPred(c: Cursor)                                // about to load pred's link
    | AtCurr(c: Cursor, curr: Id)                      // about to load curr's link
    | Looking(c: Cursor, curr: Id, link: Link)         // about to test curr's mark and flag
    | Snipping(c: Cursor, curr: Id, succ: Id)          // about to swing pred's link past curr
    | Found(prio: int, goal: Goal, path: Path)         // findNode returned
    | Linking(prio: int, node: Id, level: nat, path: Path)
    | Marking(prio: int, node: Id, level: nat, path: Path)            // about to read the link
    | MarkCas(prio: int, node: Id, level: nat, succ: Id, path: Path)  // about to set the mark
    | MinTest(curr: Id) | MinClaim(curr: Id) | MinNext(curr: Id)

  datatype State = State(height: nat, nodes: Nodes, next: Links, deleted: set<Id>,
                         claims: seq<(Id, Tid)>, threads: map<Tid, Pc>)

  function PcOf(s: State, t: Tid): Pc { if t in s.threads then s.threads[t] else Idle }

  datatype Action = CallInsert(prio: int, top: nat) | CallRemove(prio: int) | CallRemoveMin | Proceed

  // The compare-and-swap of an unmarked link.
  function Swung(s: State, n: Id, i: nat, expected: Id, desired: Link): Option<State> {
    if (n, i) in s.next && s.next[(n, i)] == Link(expected, false) then Some(s.(next := s.next[(n, i) := desired]))
    else None
  }

  function Start(s: State, a: Action): Option<Pc> {
    match a
    case CallInsert(prio, top) =>
      if INT_MIN < prio < INT_MAX && IsLevel(s.height, top) then Some(Begin(prio, ToInsert(top), Path(map[], map[])))
      else None
    case CallRemove(prio) => if INT_MIN < prio < INT_MAX then Some(Begin(prio, ToRemove, Path(map[], map[]))) else None
    case CallRemoveMin => Some(MinNext(HEAD))
    case Proceed => None
  }

  // One step of a call in progress: the new shared state and the thread's new position.
  function Advance(s: State, t: Tid, pc: Pc): Option<(State, Pc)> {
    match pc
    case Idle => None
    case Begin(prio, goal, path) => Some((s, AtPred(Cursor(prio, goal, s.height, HEAD, path))))
    case AtPred(c) => if (c.pred, c.i) in s.next then Some((s, AtCurr(c, s.next[(c.pred, c.i)].to))) else None
    case AtCurr(c, curr) => if (curr, c.i) in s.next then Some((s, Looking(c, curr, s.next[(curr, c.i)]))) else None
    case Looking(c, curr, link) => Look(s, c, curr, link)
    case Snipping(c, curr, succ) =>
      (match Swung(s, c.pred, c.i, curr, Link(succ, false))
       case Some(s2) => Some((s2, AtPred(c)))
       case None => Some((s, Begin(c.prio, c.goal, c.path))))
    case Found(prio, goal, path) => Conclude(s, prio, goal, path)
    case Linking(prio, node, level, path) => LinkStep(s, prio, node, level, path)
    case Marking(prio, node, level, path) =>
      if (node, level) !in s.next then None
      else if !s.next[(node, level)].marked then Some((s, MarkCas(prio, node, level, s.next[(node, level)].to, path)))
      else if level == 0 then Some((s, Idle))
      else Some((s, Marking(prio, node, level - 1, path)))
    case MarkCas(prio, node, level, succ, path) =>
      (match Swung(s, node, level, succ, Link(succ, true))
       case Some(s2) => Some((s2, if level == 0 then Begin(prio, ToFinish, path) else Marking(prio, node, level, path)))
       case None => Some((s, Marking(prio, node, level, path))))
    case MinTest(curr) =>
      Some((s, if curr == TAIL then Idle else if curr in s.deleted then MinNext(curr) else MinClaim(curr)))
    case MinClaim(curr) =>
      if curr in s.deleted || curr !in s.nodes then Some((s, MinNext(curr)))
      else Some((s.(deleted := s.deleted + {curr}, claims := s.claims + [(curr, t)]),
                 Begin(s.nodes[curr].prio, ToRemove, Path(map[], map[]))))
    case MinNext(curr) => if (curr, 0) in s.next then Some((s, MinTest(s.next[(curr, 0)].to))) else None
  }

  // findNode's test: unlink marked or deleted nodes, walk on below the priority, otherwise go down a level.
  function Look(s: State, c: Cursor, curr: Id, link: Link): Option<(State, Pc)> {
    if curr !in s.nodes then None
    else if link.marked || curr in s.deleted then Some((s, Snipping(c, curr, link.to)))
    else if s.nodes[curr].prio < c.prio then Some((s, AtCurr(c.(pred := curr), link.to)))
    else
      var path := Path(c.path.preds[c.i := c.pred], c.path.succs[c.i := curr]);
      if c.i == 0 then Some((s, Found(c.prio, c.goal, path)))
      else Some((s, AtPred(c.(i := c.i - 1, path := path))))
  }

  // What insert and remove do when findNode returns.
  function Conclude(s: State, prio: int, goal: Goal, path: Path): Option<(State, Pc)> {
    if 0 !in path.preds || 0 !in path.succs || path.succs[0] !in s.nodes then None
    else
      var found := s.nodes[path.succs[0]].prio == prio;
      match goal
      case ToInsert(top) => if found then Some((s, Idle)) else Publish(s, prio, top, path)
      case ToLink(node, level) => Some((s, Linking(prio, node, level, path)))
      case ToRemove =>
        if !found then Some((s, Idle))
        else Some((s, Marking(prio, path.succs[0], s.nodes[path.succs[0]].top, path)))
      case ToFinish => Some((s, Idle))
  }

  function Alloc(s: State, prio: int, top: nat, succs: map<nat, Id>): State
    requires forall i | 0 <= i <= top :: i in succs
  {
    var id := |s.nodes|;
    s.(nodes := s.nodes[id := Info(prio, top)], next := s.next + map i | 0 <= i <= top :: (id, i) := Link(succs[i], false))
  }

  // A new node takes its successors as links and is published by one compare-and-swap at the bottom level.
  function Publish(s: State, prio: int, top: nat, path: Path): Option<(State, Pc)>
    requires 0 in path.preds && 0 in path.succs
  {
    if !(forall i | 0 <= i <= top :: i in path.succs) then None
    else
      match Swung(Alloc(s, prio, top, path.succs), path.preds[0], 0, path.succs[0], Link(|s.nodes|, false))
      case Some(s2) => Some((s2, Linking(prio, |s.nodes|, 1, path)))
      case None => Some((s, Begin(prio, ToInsert(top), path)))
  }

  function LinkStep(s: State, prio: int, node: Id, level: nat, path: Path): Option<(State, Pc)> {
    if node !in s.nodes then None
    else if level > s.nodes[node].top then Some((s, Idle))
    else if level !in path.preds || level !in path.succs then None
    else
      match Swung(s, path.preds[level], level, path.succs[level], Link(node, false))
      case Some(s2) => Some((s2, Linking(prio, node, level + 1, path)))
      case None => Some((s, Begin(prio, ToLink(node, level), path)))
  }

  ghost predicate Step(s: State, t: Tid, a: Action, s2: State) {
    var pc := PcOf(s, t);
    if a.Proceed? then
      Advance(s, t, pc).Some? && var (s1, pc2) := Advance(s, t, pc).value; s2 == s1.(threads := s1.threads[t := pc2])
    else pc.Idle? && Start(s, a).Some? && s2 == s.(threads := s.threads[t := Start(s, a).value])
  }

  function Fresh(height: nat): State {
    State(height, EndNodes(height), EndLinks(height), {}, [], map[])
  }

  // -- The invariant --

  // n exists at level i.
  predicate Reaches(s: State, n: Id, i: nat) { n in s.nodes && i <= s.nodes[n].top }

  // Node n comes before m at level i. The bottom level is strictly sorted. A higher level may still link a new node to
  // a removed one of equal priority, but only to an older one.
  predicate Before(s: State, i: nat, n: Id, m: Id) {
    && n in s.nodes && m in s.nodes
    && (s.nodes[n].prio < s.nodes[m].prio || (i > 0 && s.nodes[n].prio == s.nodes[m].prio && m < n))
  }

  // Every link goes to a later node of its level; the tail's links never change.
  predicate LinkOk(s: State, n: Id, i: nat) {
    (n, i) in s.next ==>
      var link := s.next[(n, i)];
      && Reaches(s, n, i) && Reaches(s, link.to, i)
      && (if n == TAIL then link == Link(TAIL, false) else Before(s, i, n, link.to))
  }

  predicate NodeOk(s: State, n: Id) {
    n in s.nodes ==>
      && n < |s.nodes| && s.nodes[n].top <= s.height
      && (forall i | 0 <= i <= s.nodes[n].top :: (n, i) in s.next)
      && (n != HEAD && n != TAIL ==> INT_MIN < s.nodes[n].prio < INT_MAX)
  }

  predicate PathOk(s: State, prio: int, path: Path) {
    && (forall i | i in path.preds :: Reaches(s, path.preds[i], i) && s.nodes[path.preds[i]].prio < prio)
    && (forall i | i in path.succs :: Reaches(s, path.succs[i], i) && s.nodes[path.succs[i]].prio >= prio)
  }

  predicate Full(s: State, path: Path) {
    0 in path.preds && 0 in path.succs && forall i | 0 <= i <= s.height :: i in path.preds && i in path.succs
  }

  predicate GoalOk(s: State, prio: int, goal: Goal) {
    && INT_MIN < prio < INT_MAX
    && (goal.ToInsert? ==> goal.top <= s.height)
    && (goal.ToLink? ==>
          goal.level > 0 && goal.node in s.nodes && s.nodes[goal.node].prio == prio && goal.level <= s.nodes[goal.node].top)
  }

  predicate CursorOk(s: State, c: Cursor) {
    && GoalOk(s, c.prio, c.goal) && PathOk(s, c.prio, c.path)
    && c.i <= s.height && Reaches(s, c.pred, c.i) && s.nodes[c.pred].prio < c.prio
    && (forall j | c.i < j <= s.height :: j in c.path.preds && j in c.path.succs)
  }

  // A marked link never changes.
  predicate Frozen(s: State, n: Id, i: nat, link: Link) { (n, i) in s.next && s.next[(n, i)] == link && link.marked }

  predicate PcOk(s: State, pc: Pc) {
    match pc
    case Idle => true
    case Begin(prio, goal, path) => GoalOk(s, prio, goal) && PathOk(s, prio, path)
    case AtPred(c) => CursorOk(s, c)
    case AtCurr(c, curr) => CursorOk(s, c) && Reaches(s, curr, c.i) && Before(s, c.i, c.pred, curr)
    case Looking(c, curr, link) =>
      && CursorOk(s, c) && Reaches(s, curr, c.i) && Reaches(s, link.to, c.i) && Before(s, c.i, c.pred, curr)
      && (if curr == TAIL then !link.marked else Before(s, c.i, curr, link.to))
      && (link.marked ==> Frozen(s, curr, c.i, link))
    case Snipping(c, curr, succ) =>
      && CursorOk(s, c) && Reaches(s, succ, c.i) && Before(s, c.i, c.pred, curr) && Before(s, c.i, curr, succ)
      && (Frozen(s, curr, c.i, Link(succ, true)) || curr in s.deleted)
    case Found(prio, goal, path) => GoalOk(s, prio, goal) && PathOk(s, prio, path) && Full(s, path)
    case Linking(prio, node, level, path) =>
      && level > 0 && INT_MIN < prio < INT_MAX && node in s.nodes && s.nodes[node].prio == prio
      && PathOk(s, prio, path) && Full(s, path)
    case Marking(prio, node, level, path) =>
      && INT_MIN < prio < INT_MAX && Reaches(s, node, level) && s.nodes[node].prio == prio && PathOk(s, prio, path)
    case MarkCas(prio, node, level, succ, path) =>
      && INT_MIN < prio < INT_MAX && Reaches(s, node, level) && s.nodes[node].prio == prio && PathOk(s, prio, path)
    case MinTest(curr) => curr in s.nodes && curr != HEAD
    case MinClaim(curr) => curr in s.nodes && curr != HEAD && curr != TAIL
    case MinNext(curr) => curr in s.nodes && curr != TAIL
  }

  // Every deleted node was claimed once, by one thread.
  predicate ClaimsOk(s: State) {
    && (forall i, j | 0 <= i < j < |s.claims| :: s.claims[i].0 != s.claims[j].0)
    && (forall i | 0 <= i < |s.claims| :: s.claims[i].0 in s.deleted)
    && (forall n | n in s.deleted :: n in s.nodes && n != HEAD && n != TAIL)
  }

  // What holds of the shared part.
  ghost predicate Shared(s: State) {
    && HEAD in s.nodes && s.nodes[HEAD] == Info(INT_MIN, s.height)
    && TAIL in s.nodes && s.nodes[TAIL] == Info(INT_MAX, s.height)
    && (forall n, i :: LinkOk(s, n, i))
    && (forall n :: NodeOk(s, n))
    && ClaimsOk(s)
  }

  ghost predicate Inv(s: State) {
    && Shared(s)
    && forall t | t in s.threads :: PcOk(s, s.threads[t])
  }

  // Nodes are only added, marked links stay as they are, and deleted nodes stay deleted.
  predicate Extends(s: State, s2: State) {
    && s2.height == s.height
    && (forall n | n in s.nodes :: n in s2.nodes && s2.nodes[n] == s.nodes[n])
    && (forall l | l in s.next && s.next[l].marked :: l in s2.next && s2.next[l] == s.next[l])
    && s.deleted <= s2.deleted
  }

  lemma PcStable(s: State, s2: State, pc: Pc)
    requires PcOk(s, pc) && Extends(s, s2)
    ensures PcOk(s2, pc)
  {
  }

  lemma PathStable(s: State, s2: State, prio: int, path: Path)
    requires PathOk(s, prio, path) && Extends(s, s2)
    ensures PathOk(s2, prio, path)
  {
  }

  lemma FreshNode(height: nat, n: Id)
    ensures NodeOk(Fresh(height), n)
  {
    assert EndNodes(height).Keys == {HEAD, TAIL};
    assert |EndNodes(height)| == |EndNodes(height).Keys|;
  }

  lemma FreshOk(height: nat)
    ensures Inv(Fresh(height))
  {
    var s := Fresh(height);
    forall n, i ensures LinkOk(s, n, i) { }
    forall n ensures NodeOk(s, n) { FreshNode(height, n); }
  }

  // Replacing one link by one that is in order keeps all links in order.
  lemma SwingOk(s: State, n: Id, i: nat, expected: Id, desired: Link)
    requires Shared(s) && Swung(s, n, i, expected, desired).Some?
    requires Reaches(s, desired.to, i) && n != TAIL && Before(s, i, n, desired.to)
    ensures var s2 := Swung(s, n, i, expected, desired).value; Extends(s, s2) && Shared(s2)
  {
    var s2 := Swung(s, n, i, expected, desired).value;
    forall m, j ensures LinkOk(s2, m, j) { assert LinkOk(s, m, j); }
    forall m ensures NodeOk(s2, m) { assert NodeOk(s, m); }
  }

  // What a step of one thread must keep.
  ghost predicate Good(s: State, next: Option<(State, Pc)>) {
    next.Some? ==> Extends(s, next.value.0) && Shared(next.value.0) && PcOk(next.value.0, next.value.1)
  }

  lemma WalkKeeps(s: State, t: Tid, pc: Pc)
    requires Shared(s) && PcOk(s, pc) && (pc.AtPred? || pc.AtCurr?)
    ensures Good(s, Advance(s, t, pc))
  {
    if pc.AtPred? {
      assert LinkOk(s, pc.c.pred, pc.c.i);
    } else {
      assert LinkOk(s, pc.curr, pc.c.i);
    }
  }

  lemma LookKeeps(s: State, t: Tid, pc: Pc)
    requires Shared(s) && PcOk(s, pc) && pc.Looking?
    ensures Good(s, Advance(s, t, pc))
  {
    assert NodeOk(s, pc.c.pred);
    if pc.link.marked || pc.curr in s.deleted || s.nodes[pc.curr].prio < pc.c.prio {
      LookOnward(s, pc.c, pc.curr, pc.link);
    } else {
      LookDown(s, pc.c, pc.curr, pc.link);
    }
  }

  lemma LookOnward(s: State, c: Cursor, curr: Id, link: Link)
    requires Shared(s) && PcOk(s, Looking(c, curr, link))
    requires link.marked || curr in s.deleted || s.nodes[curr].prio < c.prio
    ensures Good(s, Look(s, c, curr, link))
  {
    assert link == Link(link.to, link.marked);
  }

  lemma LookDown(s: State, c: Cursor, curr: Id, link: Link)
    requires Shared(s) && PcOk(s, Looking(c, curr, link))
    requires !link.marked && curr !in s.deleted && s.nodes[curr].prio >= c.prio
    ensures Good(s, Look(s, c, curr, link))
  {
  }

  lemma SnipKeeps(s: State, t: Tid, pc: Pc)
    requires Shared(s) && PcOk(s, pc) && pc.Snipping?
    ensures Good(s, Advance(s, t, pc))
  {
    if Swung(s, pc.c.pred, pc.c.i, pc.curr, Link(pc.succ, false)).Some? {
      SwingOk(s, pc.c.pred, pc.c.i, pc.curr, Link(pc.succ, false));
      PcStable(s, Swung(s, pc.c.pred, pc.c.i, pc.curr, Link(pc.succ, false)).value, AtPred(pc.c));
    }
  }

  lemma MarkKeeps(s: State, t: Tid, pc: Pc)
    requires Shared(s) && PcOk(s, pc) && pc.MarkCas?
    ensures Good(s, Advance(s, t, pc))
  {
    assert LinkOk(s, pc.node, pc.level);
    if Swung(s, pc.node, pc.level, pc.succ, Link(pc.succ, true)).Some? {
      SwingOk(s, pc.node, pc.level, pc.succ, Link(pc.succ, true));
    }
  }

  lemma MinKeeps(s: State, t: Tid, pc: Pc)
    requires Shared(s) && PcOk(s, pc) && (pc.MinTest? || pc.MinClaim? || pc.MinNext?)
    ensures Good(s, Advance(s, t, pc))
  {
    if pc.MinNext? {
      assert LinkOk(s, pc.curr, 0) && NodeOk(s, pc.curr);
    } else if pc.MinClaim? && pc.curr !in s.deleted {
      var s2 := Advance(s, t, pc).value.0;
      forall m, j ensures LinkOk(s2, m, j) { assert LinkOk(s, m, j); }
      forall m ensures NodeOk(s2, m) { assert NodeOk(s, m); }
      assert NodeOk(s, pc.curr);
    }
  }

  lemma ExtendsOn(s: State, s1: State, s2: State)
    requires Extends(s, s1) && Extends(s1, s2)
    ensures Extends(s, s2)
  {
  }

  lemma AllocExtends(s: State, prio: int, top: nat, succs: map<nat, Id>)
    requires Shared(s) && forall i | 0 <= i <= top :: i in succs
    ensures var s2 := Alloc(s, prio, top, succs);
      Extends(s, s2) && forall m: Id, j: nat | (m, j) in s.next :: m in s.nodes && s2.next[(m, j)] == s.next[(m, j)]
  {
    assert NodeOk(s, |s.nodes|);
    forall m: Id, j: nat | (m, j) in s.next ensures m in s.nodes { assert LinkOk(s, m, j); }
  }

  // A fresh node's links leave the state in order, whether or not it becomes reachable.
  lemma AllocOk(s: State, prio: int, top: nat, succs: map<nat, Id>)
    requires Shared(s) && INT_MIN < prio < INT_MAX && top <= s.height
    requires forall i | 0 <= i <= top :: i in succs && Reaches(s, succs[i], i) && s.nodes[succs[i]].prio >= prio
    requires 0 in succs && succs[0] in s.nodes && s.nodes[succs[0]].prio != prio
    ensures var s2 := Alloc(s, prio, top, succs); Extends(s, s2) && Shared(s2) && Reaches(s2, |s.nodes|, 0)
  {
    var s2 := Alloc(s, prio, top, succs);
    var id := |s.nodes|;
    AllocExtends(s, prio, top, succs);
    assert NodeOk(s, id);
    forall m: Id, j: nat ensures LinkOk(s2, m, j) {
      assert LinkOk(s, m, j);
      if m == id && j <= top { assert NodeOk(s, succs[j]); }
    }
    forall m: Id ensures NodeOk(s2, m) { assert NodeOk(s, m); }
  }

  lemma InsertionKeeps(s: State, id: Id, prio: int, path: Path)
    requires Shared(s) && INT_MIN < prio < INT_MAX && id in s.nodes && s.nodes[id].prio == prio
    requires PathOk(s, prio, path) && Full(s, path)
    requires Swung(s, path.preds[0], 0, path.succs[0], Link(id, false)).Some?
    ensures var s2 := Swung(s, path.preds[0], 0, path.succs[0], Link(id, false)).value;
      Extends(s, s2) && Shared(s2) && PcOk(s2, Linking(prio, id, 1, path))
  {
    SwingOk(s, path.preds[0], 0, path.succs[0], Link(id, false));
    PcStable(s, Swung(s, path.preds[0], 0, path.succs[0], Link(id, false)).value, Linking(prio, id, 1, path));
  }

  lemma PublishWins(s: State, prio: int, top: nat, path: Path)
    requires Shared(s) && GoalOk(s, prio, ToInsert(top)) && PathOk(s, prio, path) && Full(s, path)
    requires s.nodes[path.succs[0]].prio != prio
    requires Swung(Alloc(s, prio, top, path.succs), path.preds[0], 0, path.succs[0], Link(|s.nodes|, false)).Some?
    ensures var s2 := Swung(Alloc(s, prio, top, path.succs), path.preds[0], 0, path.succs[0], Link(|s.nodes|, false)).value;
      Extends(s, s2) && Shared(s2) && PcOk(s2, Linking(prio, |s.nodes|, 1, path))
  {
    var s1 := Alloc(s, prio, top, path.succs);
    AllocOk(s, prio, top, path.succs);
    PathStable(s, s1, prio, path);
    InsertionKeeps(s1, |s.nodes|, prio, path);
    ExtendsOn(s, s1, Swung(s1, path.preds[0], 0, path.succs[0], Link(|s.nodes|, false)).value);
  }

  lemma PublishKeeps(s: State, prio: int, top: nat, path: Path)
    requires Shared(s) && GoalOk(s, prio, ToInsert(top)) && PathOk(s, prio, path) && Full(s, path)
    requires s.nodes[path.succs[0]].prio != prio
    ensures Good(s, Publish(s, prio, top, path))
  {
    if Swung(Alloc(s, prio, top, path.succs), path.preds[0], 0, path.succs[0], Link(|s.nodes|, false)).Some? {
      PublishWins(s, prio, top, path);
    }
  }

  lemma FoundKeeps(s: State, t: Tid, pc: Pc)
    requires Shared(s) && PcOk(s, pc) && pc.Found?
    ensures Good(s, Advance(s, t, pc))
  {
    assert Reaches(s, pc.path.succs[0], 0);
    if pc.goal.ToInsert? && s.nodes[pc.path.succs[0]].prio != pc.prio {
      PublishKeeps(s, pc.prio, pc.goal.top, pc.path);
    }
  }

  lemma LinkKeeps(s: State, t: Tid, pc: Pc)
    requires Shared(s) && PcOk(s, pc) && pc.Linking?
    ensures Good(s, Advance(s, t, pc))
  {
    assert NodeOk(s, pc.node);
    if pc.level <= s.nodes[pc.node].top {
      var pred, succ, desired := pc.path.preds[pc.level], pc.path.succs[pc.level], Link(pc.node, false);
      if Swung(s, pred, pc.level, succ, desired).Some? {
        SwingOk(s, pred, pc.level, succ, desired);
        PcStable(s, Swung(s, pred, pc.level, succ, desired).value, Linking(pc.prio, pc.node, pc.level + 1, pc.path));
      }
    }
  }

  lemma AdvanceKeeps(s: State, t: Tid, pc: Pc)
    requires Shared(s) && PcOk(s, pc)
    ensures Good(s, Advance(s, t, pc))
  {
    match pc {
      case Idle => 
      case Begin(_, _, _) =>
      case Marking(_, _, _, _) =>
      case AtPred(_) => WalkKeeps(s, t, pc);
      case AtCurr(_, _) => WalkKeeps(s, t, pc);
      case Looking(_, _, _) => LookKeeps(s, t, pc);
      case Snipping(_, _, _) => SnipKeeps(s, t, pc);
      case Found(_, _, _) => FoundKeeps(s, t, pc);
      case Linking(_, _, _, _) => LinkKeeps(s, t, pc);
      case MarkCas(_, _, _, _, _) => MarkKeeps(s, t, pc);
      case MinTest(_) => MinKeeps(s, t, pc);
      case MinClaim(_) => MinKeeps(s, t, pc);
      case MinNext(_) => MinKeeps(s, t, pc);
    }
  }
}
