/** The message queue of a node. While the node is connecting, messages about files are put back until the initial files
    have arrived. */
module MessageQueue {
  import opened Wrappers

  datatype Kind =
    | Payload | ResendRequest
    | Lock | Unlock | DeleteFile | ContentChange
    | InitialSync(total: nat) | InitialSyncRequest
    | Connect | Disconnect | LinkLost

  datatype Message = Message(kind: Kind, content: string)

  // A queued message; lower priorities come first.
  datatype Entry = Entry(prio: nat, msg: Message)

  datatype State = State(queue: seq<Entry>, received: nat, total: nat, handled: seq<Message>)

  predicate Finished(s: State) { s.received == s.total }

  const LOCK_PRIORITY := 4

  // -- One message --

  // These messages have no effect while the node is connecting.
  predicate Gated(k: Kind) {
    k.Lock? || k.Unlock? || k.DeleteFile? || k.ContentChange? || k.InitialSyncRequest? || k.Disconnect?
  }

  // The priority with which a message goes back into the queue.
  function Deferred(k: Kind): nat {
    match k
    case Lock => 5
    case Unlock => 5
    case InitialSync(_) => 5
    case InitialSyncRequest => 5
    case DeleteFile => 6
    case ContentChange => 6
    case Connect => 2
    case Disconnect => 3
    case ResendRequest => 1
    case LinkLost => 1
    case Payload => 10
  }

  // The entry at position i is one of minimal priority.
  predicate IsTop(q: seq<Entry>, i: nat) { i < |q| && forall j | 0 <= j < |q| :: q[i].prio <= q[j].prio }

  function Without(q: seq<Entry>, i: nat): seq<Entry>
    requires i < |q|
  {
    q[..i] + q[i + 1..]
  }

  // The priority with which a message first enters the queue.
  function Fresh(k: Kind): nat {
    match k
    case ResendRequest => 0
    case Connect => 1
    case Disconnect => 2
    case LinkLost => 2
    case InitialSyncRequest => 2
    case Lock => 4
    case Unlock => 4
    case InitialSync(_) => 4
    case DeleteFile => 5
    case ContentChange => 5
    case Payload => 10
  }

  function Enqueued(messages: seq<Message>): seq<Entry> {
    seq(|messages|, i requires 0 <= i < |messages| => Entry(Fresh(messages[i].kind), messages[i]))
  }

  // What the handlers find outside the queue: whether the lost host is still a peer, the managed files and which of
  // them are locked, whether there is a link to a node that asked for them, and the old message that a resend request
  // names, if sending it again reaches this node too.
  datatype World = World(lostPeer: bool, files: seq<string>, locked: set<string>, linked: bool, copy: Option<Message>)

  function UnlocksOf(files: seq<string>): seq<Message> {
    seq(|files|, i requires 0 <= i < |files| => Message(Unlock, files[i]))
  }

  // The managed files from position i on, each followed by its lock.
  function FilesFrom(w: World, i: nat): seq<Message>
    requires i <= |w.files|
    decreases |w.files| - i
  {
    if i == |w.files| then []
    else
      [Message(InitialSync(|w.files|), w.files[i])]
      + (if w.files[i] in w.locked then [Message(Lock, w.files[i])] else []) + FilesFrom(w, i + 1)
  }

  // The messages a handler sends that this node receives itself: broadcasts, and messages for a node it has no link to,
  // which it floods.
  function Own(msg: Message, w: World): seq<Message> {
    match msg.kind
    case Disconnect => UnlocksOf(w.files)
    case LinkLost => if w.lostPeer then [Message(Disconnect, msg.content)] else []
    case InitialSyncRequest => if w.linked then [] else FilesFrom(w, 0)
    case ResendRequest => if w.copy.Some? then [w.copy.value] else []
    case _ => []
  }

  // Processing the entry at position i.
  function Process(s: State, i: nat, w: World): State
    requires i < |s.queue|
  {
    var msg := s.queue[i].msg;
    var rest := Without(s.queue, i);
    if Gated(msg.kind) && !Finished(s) then s.(queue := rest + [Entry(Deferred(msg.kind), msg)])
    else
      var s1 := s.(queue := rest + Enqueued(Own(msg, w)), handled := s.handled + [msg]);
      match msg.kind
      case InitialSync(total) => s1.(received := s.received + 1, total := total)
      case Connect => s1.(received := 0, total := 1)
      case _ => s1
  }

  // -- Nothing is lost --

  function Messages(q: seq<Entry>): seq<Message> { seq(|q|, i requires 0 <= i < |q| => q[i].msg) }

  function All(s: State): multiset<Message> { multiset(Messages(s.queue)) + multiset(s.handled) }

  lemma MessagesAppend(a: seq<Entry>, b: seq<Entry>)
    ensures Messages(a + b) == Messages(a) + Messages(b)
  {
  }

  lemma MessagesWithout(q: seq<Entry>, i: nat)
    requires i < |q|
    ensures multiset(Messages(q)) == multiset(Messages(Without(q, i))) + multiset{q[i].msg}
  {
    assert q == q[..i] + [q[i]] + q[i + 1..];
    MessagesAppend(q[..i] + [q[i]], q[i + 1..]);
    MessagesAppend(q[..i], [q[i]]);
    MessagesAppend(q[..i], q[i + 1..]);
    assert Messages([q[i]]) == [q[i].msg];
  }

  lemma PutBack(rest: seq<Entry>, e: Entry)
    ensures multiset(Messages(rest + [e])) == multiset(Messages(rest)) + multiset{e.msg}
  {
    MessagesAppend(rest, [e]);
    assert Messages([e]) == [e.msg];
  }

  lemma MessagesEnqueued(messages: seq<Message>)
    ensures Messages(Enqueued(messages)) == messages
  {
  }

  /** No message is lost or duplicated by processing: it is handled or back in the queue. What is added are exactly the
      messages that its handler sends to this node itself. */
  lemma NothingLost(s: State, i: nat, w: World)
    requires i < |s.queue|
    ensures var msg := s.queue[i].msg;
      All(Process(s, i, w)) == All(s) + multiset(if Gated(msg.kind) && !Finished(s) then [] else Own(msg, w))
  {
    var msg, rest := s.queue[i].msg, Without(s.queue, i);
    MessagesWithout(s.queue, i);
    if Gated(msg.kind) && !Finished(s) {
      PutBack(rest, Entry(Deferred(msg.kind), msg));
    } else {
      MessagesAppend(rest, Enqueued(Own(msg, w)));
      MessagesEnqueued(Own(msg, w));
    }
  }

  // -- What handlers do, in literal terms --

  // The queue is what was left in place, followed by these entries.
  predicate Added(q: seq<Entry>, s: State, i: nat, tail: seq<Entry>)
    requires i < |s.queue|
  {
    q == s.queue[..i] + s.queue[i + 1..] + tail
  }

  // One unlock for each file, in order.
  predicate UnlockEach(tail: seq<Entry>, files: seq<string>) {
    |tail| == |files| && forall j | 0 <= j < |files| :: tail[j] == Entry(4, Message(Unlock, files[j]))
  }

  /** A disconnect that takes effect leaves one unlock in the queue for every managed file, and nothing else. */
  lemma DisconnectUnlocks(s: State, i: nat, w: World)
    requires i < |s.queue| && s.queue[i].msg.kind == Disconnect && s.received == s.total
    ensures var q := Process(s, i, w).queue;
      |q| >= |s.queue| - 1 && Added(q, s, i, q[|s.queue| - 1..]) && UnlockEach(q[|s.queue| - 1..], w.files)
  {
    assert Process(s, i, w).queue[|s.queue| - 1..] == Enqueued(UnlocksOf(w.files));
  }

  // How many of the first n files are locked.
  function LockedAmong(w: World, n: nat): nat
    requires n <= |w.files|
  {
    if n == 0 then 0 else LockedAmong(w, n - 1) + (if w.files[n - 1] in w.locked then 1 else 0)
  }

  // From the given file on: each file, with the number of all, followed by its lock if it is locked, and nothing else.
  predicate FileEach(tail: seq<Entry>, w: World, from_: nat)
    requires from_ <= |w.files|
  {
    && |tail| == |w.files| - from_ + (LockedAmong(w, |w.files|) - LockedAmong(w, from_))
    && forall j: nat | from_ <= j < |w.files| :: FileAt(tail, w, j, j - from_ + (LockedAmong(w, j) - LockedAmong(w, from_)))
  }

  // File j stands at this position, and its lock behind it if it is locked.
  predicate FileAt(tail: seq<Entry>, w: World, j: nat, at: int)
    requires j < |w.files|
  {
    && 0 <= at < |tail| && tail[at] == Entry(4, Message(InitialSync(|w.files|), w.files[j]))
    && (w.files[j] in w.locked ==> at + 1 < |tail| && tail[at + 1] == Entry(4, Message(Lock, w.files[j])))
  }

  lemma {:induction false} LockedMore(w: World, m: nat, n: nat)
    requires m <= n <= |w.files|
    ensures LockedAmong(w, m) <= LockedAmong(w, n)
  {
    if m < n { LockedMore(w, m, n - 1); }
  }

  lemma FileAtBehind(head: seq<Entry>, rest: seq<Entry>, w: World, j: nat, at: int)
    requires j < |w.files| && FileAt(rest, w, j, at)
    ensures FileAt(head + rest, w, j, |head| + at)
  {
  }

  // The entries of file i.
  function OneFile(w: World, i: nat): seq<Entry>
    requires i < |w.files|
  {
    [Entry(4, Message(InitialSync(|w.files|), w.files[i]))]
    + if w.files[i] in w.locked then [Entry(4, Message(Lock, w.files[i]))] else []
  }

  lemma OneFileMore(w: World, i: nat)
    requires i < |w.files|
    ensures Enqueued(FilesFrom(w, i)) == OneFile(w, i) + Enqueued(FilesFrom(w, i + 1))
  {
    FilesEnqueued(w, i);
    var lock := Message(Lock, w.files[i]);
    assert Enqueued([lock]) == [Entry(4, lock)];
  }

  lemma FileEachGrows(w: World, i: nat, rest: seq<Entry>)
    requires i < |w.files| && FileEach(rest, w, i + 1)
    ensures FileEach(OneFile(w, i) + rest, w, i)
  {
    var head := OneFile(w, i);
    LockedMore(w, i + 1, |w.files|);
    forall j: nat | i <= j < |w.files|
      ensures FileAt(head + rest, w, j, j - i + (LockedAmong(w, j) - LockedAmong(w, i)))
    {
      if j > i { FileAtBehind(head, rest, w, j, j - (i + 1) + (LockedAmong(w, j) - LockedAmong(w, i + 1))); }
    }
  }

  lemma {:induction false} FilesFromMeans(w: World, i: nat)
    requires i <= |w.files|
    ensures FileEach(Enqueued(FilesFrom(w, i)), w, i)
    decreases |w.files| - i
  {
    if i < |w.files| {
      FilesFromMeans(w, i + 1);
      OneFileMore(w, i);
      FileEachGrows(w, i, Enqueued(FilesFrom(w, i + 1)));
    }
  }

  /** A request for the initial files that takes effect on a node without a link to the one that asked leaves in the queue,
      for each managed file in order, the file with the number of all files, followed by a lock exactly if it is locked,
      and nothing else. With a link it leaves nothing. */
  lemma SyncRequestSends(s: State, i: nat, w: World)
    requires i < |s.queue| && s.queue[i].msg.kind == InitialSyncRequest && s.received == s.total
    ensures var q := Process(s, i, w).queue;
      |q| >= |s.queue| - 1 && Added(q, s, i, q[|s.queue| - 1..]) &&
      if w.linked then q[|s.queue| - 1..] == [] else FileEach(q[|s.queue| - 1..], w, 0)
  {
    FilesFromMeans(w, 0);
    assert Process(s, i, w).queue[|s.queue| - 1..] == Enqueued(Own(s.queue[i].msg, w));
  }

  // A message of this kind takes effect: the node has finished connecting, or the kind does not wait for that.
  predicate Effective(s: State, k: Kind) {
    s.received == s.total || k == Payload || k == ResendRequest || k == Connect || k == LinkLost || k.InitialSync?
  }

  /** What the other messages leave in the queue when they take effect: a lost peer the disconnect of that host, a resend
      the copy that reaches this node, and all others nothing. */
  lemma OthersSend(s: State, i: nat, w: World)
    requires i < |s.queue| && Effective(s, s.queue[i].msg.kind)
    requires var k := s.queue[i].msg.kind; k != Disconnect && k != InitialSyncRequest
    ensures var q, msg := Process(s, i, w).queue, s.queue[i].msg;
      if msg.kind == LinkLost && w.lostPeer then Added(q, s, i, [Entry(2, Message(Disconnect, msg.content))])
      else if msg.kind == ResendRequest && w.copy.Some? then Added(q, s, i, [Entry(Fresh(w.copy.value.kind), w.copy.value)])
      else Added(q, s, i, [])
  {
    assert Process(s, i, w).queue == Without(s.queue, i) + Enqueued(Own(s.queue[i].msg, w));
  }

  /** A message that takes effect is handled, and changes the counters only if it is a connect or an initial file. */
  lemma CountersMove(s: State, i: nat, w: World)
    requires i < |s.queue| && Effective(s, s.queue[i].msg.kind)
    ensures var s2, msg := Process(s, i, w), s.queue[i].msg;
      && s2.handled == s.handled + [msg]
      && if msg.kind == Connect then s2.received == 0 && s2.total == 1
         else if msg.kind.InitialSync? then s2.received == s.received + 1 && s2.total == msg.kind.total
         else s2.received == s.received && s2.total == s.total
  {
  }

  /** While a node is connecting, locks, unlocks, deletions, changes of contents, disconnects and requests for the initial
      files have no effect but to go back into the queue, with these priorities. */
  lemma ConnectingDefers(s: State, i: nat, w: World)
    requires i < |s.queue| && !Effective(s, s.queue[i].msg.kind)
    ensures var s2, msg := Process(s, i, w), s.queue[i].msg;
      && s2.received == s.received && s2.total == s.total && s2.handled == s.handled
      && msg.kind in {Lock, Unlock, DeleteFile, ContentChange, InitialSyncRequest, Disconnect}
      && Added(s2.queue, s, i, [Entry(if msg.kind == Disconnect then 3
                                      else if msg.kind == DeleteFile || msg.kind == ContentChange then 6 else 5, msg)])
  {
  }

  /** Where a message that arrives, or that the node sends to itself, stands: resend requests first, then connects, then
      disconnects, lost links and requests for the initial files, then initial files, locks and unlocks, and last
      deletions and changes of contents, with payloads behind them. */
  lemma ArrivalOrder(s: State, msg: Message)
    ensures Next(s, Arrive(msg)).Some?
    ensures Next(s, Arrive(msg)).value.queue ==
      s.queue + [Entry(match msg.kind
                       case ResendRequest => 0
                       case Connect => 1
                       case Disconnect => 2 case LinkLost => 2 case InitialSyncRequest => 2
                       case Lock => 4 case Unlock => 4 case InitialSync(_) => 4
                       case DeleteFile => 5 case ContentChange => 5
                       case Payload => 10, msg)]
  {
  }

  /** A lock that was put back comes out before any deletion or change of contents that was put back. */
  lemma LocksFirst(s: State, i: nat, w: World, j: nat)
    requires i < |s.queue| && s.queue[i].msg.kind == Lock && s.received != s.total
    ensures var q := Process(s, i, w).queue;
      IsTop(q, j) && AllPlaced(q) ==>
        q[j].prio <= 5 && (q[j].msg.kind == DeleteFile || q[j].msg.kind == ContentChange ==> q[j].prio == 5)
  {
    var q := Process(s, i, w).queue;
    assert q[|q| - 1] == Entry(5, s.queue[i].msg);
  }

  // Every entry has the priority with which it arrived or was put back.
  predicate AllPlaced(q: seq<Entry>) {
    forall e | e in q :: e.prio == Fresh(e.msg.kind) || (Gated(e.msg.kind) && e.prio == Deferred(e.msg.kind))
  }

  // -- Runs --

  // The entry at a position is popped, or a message arrives.
  datatype Move = Pop(i: nat, w: World) | Arrive(msg: Message)

  function Next(s: State, m: Move): Option<State> {
    match m
    case Pop(i, w) => if IsTop(s.queue, i) then Some(Process(s, i, w)) else None
    case Arrive(msg) => Some(s.(queue := s.queue + Enqueued([msg])))
  }

  function Run(s: State, moves: seq<Move>): Option<State> {
    if moves == [] then Some(s)
    else match Run(s, moves[..|moves| - 1])
      case None => None
      case Some(s1) => Next(s1, moves[|moves| - 1])
  }

  predicate PopsOnly(moves: seq<Move>) { forall m | m in moves :: m.Pop? }

  // Entries ahead of everything that has been deferred.
  function Ahead(q: seq<Entry>): nat {
    if q == [] then 0 else Ahead(q[..|q| - 1]) + (if q[|q| - 1].prio <= LOCK_PRIORITY then 1 else 0)
  }

  // Initial files that wait in the queue in their place.
  function Syncs(q: seq<Entry>): nat {
    if q == [] then 0
    else Syncs(q[..|q| - 1]) + (if q[|q| - 1].msg.kind.InitialSync? && q[|q| - 1].prio <= LOCK_PRIORITY then 1 else 0)
  }

  lemma {:induction false} CountsAppend(a: seq<Entry>, b: seq<Entry>)
    ensures Ahead(a + b) == Ahead(a) + Ahead(b) && Syncs(a + b) == Syncs(a) + Syncs(b)
  {
    if b == [] {
      assert a + b == a;
    } else {
      assert (a + b)[..|a + b| - 1] == a + b[..|b| - 1];
      CountsAppend(a, b[..|b| - 1]);
    }
  }

  lemma CountsOne(e: Entry)
    ensures Ahead([e]) == (if e.prio <= LOCK_PRIORITY then 1 else 0)
    ensures Syncs([e]) == (if e.msg.kind.InitialSync? && e.prio <= LOCK_PRIORITY then 1 else 0)
  {
    assert [e][..0] == [];
    assert Ahead([]) == 0 && Syncs([]) == 0;
  }

  lemma CountsWithout(q: seq<Entry>, i: nat)
    requires i < |q|
    ensures Ahead(q) == Ahead(Without(q, i)) + Ahead([q[i]]) && Syncs(q) == Syncs(Without(q, i)) + Syncs([q[i]])
  {
    CountsAppend(q[..i], q[i + 1..]);
    CountsAppend(q[..i], [q[i]]);
    CountsAppend(q[..i] + [q[i]], q[i + 1..]);
    SplitAt(q, i);
  }

  lemma SplitAt(q: seq<Entry>, i: nat)
    requires i < |q|
    ensures q == q[..i] + [q[i]] + q[i + 1..]
  {
  }

  lemma {:induction false} SyncAhead(q: seq<Entry>) returns (i: nat)
    requires Syncs(q) > 0
    ensures i < |q| && q[i].prio <= LOCK_PRIORITY
  {
    var n := |q| - 1;
    if q[n].prio <= LOCK_PRIORITY { i := n; } else { i := SyncAhead(q[..n]); }
  }

  // -- Draining --

  // An entry of a queue in which only initial files can end the connection: its priority is one the node assigns, it is
  // neither a connect nor a resend request, and an initial file names the common total.
  predicate Orderly(e: Entry, total: nat) {
    var k := e.msg.kind;
    && (e.prio == Fresh(k) || (Gated(k) && e.prio == Deferred(k)))
    && !k.Connect? && !k.ResendRequest? && (k.InitialSync? ==> k.total == total)
  }

  predicate AllOrderly(q: seq<Entry>, total: nat) { forall i | 0 <= i < |q| :: Orderly(q[i], total) }

  predicate Cut(k: Kind) { k.Disconnect? || k.LinkLost? }

  predicate NoCut(q: seq<Entry>) { forall i | 0 <= i < |q| :: !Cut(q[i].msg.kind) }

  // Nothing queued says that a node is gone, and there are enough initial files to finish, and not too many yet.
  predicate Ready(s: State, total: nat) {
    NoCut(s.queue) && s.received < total <= s.received + Syncs(s.queue)
  }

  ghost predicate Draining(s: State, total: nat) { !Finished(s) && AllOrderly(s.queue, total) && Ready(s, total) }

  lemma ProcessCounts(s: State, i: nat, w: World)
    requires i < |s.queue| && !Finished(s) && !Cut(s.queue[i].msg.kind) && !s.queue[i].msg.kind.ResendRequest?
    ensures var e, q := s.queue[i], Process(s, i, w).queue;
      Syncs(q) == Syncs(s.queue) - (if e.msg.kind.InitialSync? && e.prio <= LOCK_PRIORITY then 1 else 0)
    ensures s.queue[i].prio <= LOCK_PRIORITY ==> Ahead(Process(s, i, w).queue) == Ahead(s.queue) - 1
  {
    var e, rest := s.queue[i], Without(s.queue, i);
    CountsWithout(s.queue, i);
    CountsOne(e);
    if Gated(e.msg.kind) {
      CountsAppend(rest, [Entry(Deferred(e.msg.kind), e.msg)]);
      CountsOne(Entry(Deferred(e.msg.kind), e.msg));
    } else {
      assert rest + Enqueued([]) == rest;
    }
  }

  // Every entry was in the queue before, is the popped one put back, or was sent by its handler.
  lemma FromQueue(s: State, i: nat, w: World, j: nat)
    requires i < |s.queue| && j < |Process(s, i, w).queue|
    ensures var e, msg := Process(s, i, w).queue[j], s.queue[i].msg;
      || (exists k: nat :: k < |s.queue| && s.queue[k] == e)
      || (Gated(msg.kind) && !Finished(s) && e == Entry(Deferred(msg.kind), msg))
      || (!(Gated(msg.kind) && !Finished(s)) && e.msg in Own(msg, w) && e.prio == Fresh(e.msg.kind))
  {
    var n := |s.queue| - 1;
    if j < n { assert s.queue[if j < i then j else j + 1] == Process(s, i, w).queue[j]; }
  }

  lemma StillOrderly(s: State, total: nat, i: nat, w: World)
    requires i < |s.queue| && AllOrderly(s.queue, total) && !Finished(s)
    ensures AllOrderly(Process(s, i, w).queue, total)
    ensures NoCut(s.queue) ==> NoCut(Process(s, i, w).queue)
  {
    var q := Process(s, i, w).queue;
    assert Orderly(s.queue[i], total);
    forall j | 0 <= j < |q| ensures Orderly(q[j], total) && (NoCut(s.queue) ==> !Cut(q[j].msg.kind)) {
      FromQueue(s, i, w, j);
    }
  }

  /** Each pop of a draining node moves one entry out of the way, takes no gated message into effect, and either
      finishes the connection or leaves enough initial files to go on. */
  lemma DrainStep(s: State, total: nat, i: nat, w: World)
    requires Draining(s, total) && IsTop(s.queue, i)
    ensures var s2 := Process(s, i, w);
      && Ahead(s2.queue) == Ahead(s.queue) - 1 && All(s2) == All(s)
      && (s2.handled == s.handled || (s2.handled == s.handled + [s.queue[i].msg] && !Gated(s.queue[i].msg.kind)))
      && (Finished(s2) ==> s2.received == total) && (!Finished(s2) ==> Draining(s2, total))
  {
    var k := SyncAhead(s.queue);
    assert Orderly(s.queue[i], total);
    ProcessCounts(s, i, w);
    NothingLost(s, i, w);
    StillOrderly(s, total, i, w);
  }

  // Since state s no message was lost and none of the gated took effect.
  ghost predicate EffectsSince(s: State, s2: State) {
    && |s.handled| <= |s2.handled| && s2.handled[..|s.handled|] == s.handled
    && (forall i | |s.handled| <= i < |s2.handled| :: !Gated(s2.handled[i].kind))
    && All(s2) == All(s)
  }

  // None of the first n moves finishes the connection.
  ghost predicate Unfinished(s: State, moves: seq<Move>, n: nat) {
    forall m: nat | m <= n && m <= |moves| :: Run(s, moves[..m]).Some? && !Finished(Run(s, moves[..m]).value)
  }

  // After n moves, and not before, the node has finished connecting; only messages that are not gated were handled.
  ghost predicate FinishesAt(s: State, moves: seq<Move>, n: nat) {
    && n <= |moves| && Run(s, moves[..n]).Some? && Finished(Run(s, moves[..n]).value)
    && (n > 0 ==> Unfinished(s, moves, n - 1))
    && EffectsSince(s, Run(s, moves[..n]).value)
  }

  lemma {:induction false} AheadZero(q: seq<Entry>, i: nat)
    requires i < |q| && q[i].prio <= LOCK_PRIORITY
    ensures Ahead(q) > 0
  {
    if i < |q| - 1 { AheadZero(q[..|q| - 1], i); }
  }

  lemma {:induction false} RunPrefix(s: State, moves: seq<Move>, n: nat)
    requires Run(s, moves).Some? && n <= |moves|
    ensures Run(s, moves[..n]).Some?
    decreases |moves|
  {
    if n < |moves| {
      RunPrefix(s, moves[..|moves| - 1], n);
      assert moves[..|moves| - 1][..n] == moves[..n];
    } else {
      assert moves[..n] == moves;
    }
  }

  lemma RunStep(s: State, moves: seq<Move>, n: nat)
    requires Run(s, moves).Some? && n < |moves|
    ensures Run(s, moves[..n]).Some? && Run(s, moves[..n + 1]).Some?
    ensures Next(Run(s, moves[..n]).value, moves[n]) == Run(s, moves[..n + 1])
  {
    RunPrefix(s, moves, n + 1);
    assert moves[..n + 1][..n] == moves[..n];
  }

  lemma EffectsStep(s: State, s1: State, total: nat, i: nat, w: World)
    requires EffectsSince(s, s1) && Draining(s1, total) && IsTop(s1.queue, i)
    ensures var s2 := Process(s1, i, w);
      EffectsSince(s, s2) && Ahead(s2.queue) == Ahead(s1.queue) - 1 && (!Finished(s2) ==> Draining(s2, total))
  {
    DrainStep(s1, total, i, w);
  }

  // After n pops the node is still draining, and n entries are out of the way.
  ghost predicate OnCourse(s: State, total: nat, s2: State, n: nat) {
    Draining(s2, total) && Ahead(s2.queue) == Ahead(s.queue) - n && EffectsSince(s, s2)
  }

  lemma UnfinishedOn(s: State, moves: seq<Move>, n: nat)
    requires 0 < n <= |moves| && Unfinished(s, moves, n - 1)
    requires Run(s, moves[..n]).Some? && !Finished(Run(s, moves[..n]).value)
    ensures Unfinished(s, moves, n)
  {
  }

  // Within n pops the node either finishes, or stays on course.
  lemma {:induction false} DrainUpTo(s: State, total: nat, moves: seq<Move>, n: nat) returns (m: nat, done: bool)
    requires Draining(s, total) && Run(s, moves).Some? && PopsOnly(moves) && n <= |moves|
    ensures m <= n && Run(s, moves[..m]).Some?
    ensures if done then FinishesAt(s, moves, m)
      else m == n && Unfinished(s, moves, n) && OnCourse(s, total, Run(s, moves[..n]).value, n)
  {
    if n == 0 {
      assert moves[..0] == [];
      return 0, false;
    }
    m, done := DrainUpTo(s, total, moves, n - 1);
    if !done {
      RunStep(s, moves, n - 1);
      assert moves[n - 1] in moves;
      m := n;
      EffectsStep(s, Run(s, moves[..n - 1]).value, total, moves[n - 1].i, moves[n - 1].w);
      done := Finished(Run(s, moves[..n]).value);
      if !done { UnfinishedOn(s, moves, n); }
    }
  }

  /** A connecting node that is ready finishes connecting within as many pops as there are entries ahead, whichever of
      the minimal entries each pop returns. Until then no gated message has taken effect, and no message is lost. */
  lemma DrainFinishes(s: State, total: nat, moves: seq<Move>)
    requires Draining(s, total) && PopsOnly(moves) && Run(s, moves).Some? && |moves| >= Ahead(s.queue)
    ensures exists n: nat :: n <= Ahead(s.queue) && FinishesAt(s, moves, n)
  {
    var n, done := DrainUpTo(s, total, moves, Ahead(s.queue));
    if !done {
      var s2 := Run(s, moves[..n]).value;
      var k := SyncAhead(s2.queue);
      AheadZero(s2.queue, k);
    }
  }

  // -- Never finishing --

  // A deferred disconnect is put back at this priority, which is still ahead of the initial files.
  const DISCONNECT_DEFERRED := 3

  // An entry that keeps the initial files from being reached; with links, also a lost link, whose handler sends a
  // disconnect.
  predicate Blocks(e: Entry, links: bool) {
    e.prio <= DISCONNECT_DEFERRED && (e.msg.kind.Disconnect? || (links && e.msg.kind.LinkLost?))
  }

  predicate SyncsBehind(q: seq<Entry>) {
    forall i | 0 <= i < |q| :: q[i].msg.kind.InitialSync? ==> q[i].prio > DISCONNECT_DEFERRED
  }

  ghost predicate Stalled(s: State, links: bool) {
    && !Finished(s) && SyncsBehind(s.queue)
    && exists i :: 0 <= i < |s.queue| && Blocks(s.queue[i], links)
  }

  lemma StillBehind(s: State, i: nat, w: World)
    requires i < |s.queue| && SyncsBehind(s.queue)
    ensures SyncsBehind(Process(s, i, w).queue)
  {
    var q := Process(s, i, w).queue;
    forall j | 0 <= j < |q| && q[j].msg.kind.InitialSync? ensures q[j].prio > DISCONNECT_DEFERRED { FromQueue(s, i, w, j); }
  }

  // The blocking entry stays, comes back, or is replaced by the disconnect that its handler sends.
  lemma StillBlocked(s: State, links: bool, i: nat, w: World, b: nat) returns (j: nat)
    requires i < |s.queue| && b < |s.queue| && Blocks(s.queue[b], links) && !Finished(s) && (links ==> w.lostPeer)
    ensures j < |Process(s, i, w).queue| && Blocks(Process(s, i, w).queue[j], links)
  {
    if b != i {
      j := if b < i then b else b - 1;
    } else {
      j := |s.queue| - 1;
    }
  }

  // No pop and no arrival ends a stall.
  lemma StallStep(s: State, links: bool, m: Move)
    requires Stalled(s, links) && Next(s, m).Some? && (links && m.Pop? ==> m.w.lostPeer)
    ensures Stalled(Next(s, m).value, links)
  {
    var b :| 0 <= b < |s.queue| && Blocks(s.queue[b], links);
    if m.Pop? {
      StillBehind(s, m.i, m.w);
      var j := StillBlocked(s, links, m.i, m.w, b);
    } else {
      assert Next(s, m).value.queue[b] == s.queue[b];
    }
  }

  /** A disconnect queued by a connecting node stops it for good, whatever else is queued and whatever arrives: the
      initial files stay behind it, and it is put back ahead of them each time. */
  lemma {:induction false} DisconnectStalls(s: State, moves: seq<Move>)
    requires Stalled(s, false) && Run(s, moves).Some?
    ensures Stalled(Run(s, moves).value, false)
  {
    if moves != [] {
      DisconnectStalls(s, moves[..|moves| - 1]);
      StallStep(Run(s, moves[..|moves| - 1]).value, false, moves[|moves| - 1]);
    }
  }

  /** A connect starts the connection over, and it stalls the node for good if and only if a disconnect is queued with a
      priority ahead of the initial files. */
  lemma ConnectStallsIff(s: State, i: nat, w: World)
    requires i < |s.queue| && s.queue[i].msg.kind.Connect? && SyncsBehind(s.queue)
    ensures Stalled(Process(s, i, w), false) <==> Blocked(s)
  {
    var s2 := Process(s, i, w);
    StillBehind(s, i, w);
    if Blocked(s) {
      var b :| 0 <= b < |s.queue| && Blocks(s.queue[b], false);
      assert s2.queue[if b < i then b else b - 1] == s.queue[b];
    }
    if Stalled(s2, false) {
      var j :| 0 <= j < |s2.queue| && Blocks(s2.queue[j], false);
      FromQueue(s, i, w, j);
    }
  }

  // A disconnect is queued ahead of the initial files.
  ghost predicate Blocked(s: State) { exists b :: 0 <= b < |s.queue| && Blocks(s.queue[b], false) }

  // The state after n moves.
  function After(s: State, moves: seq<Move>, n: nat): State
    requires n <= |moves| && Run(s, moves[..n]).Some?
  {
    Run(s, moves[..n]).value
  }

  // Move n pops an entry of some kind.
  function Popped(s: State, moves: seq<Move>, n: nat): Option<Kind>
    requires n < |moves| && Run(s, moves[..n]).Some?
  {
    var q := After(s, moves, n).queue;
    if moves[n].Pop? && moves[n].i < |q| then Some(q[moves[n].i].msg.kind) else None
  }

  lemma {:induction false} BehindAfter(s: State, moves: seq<Move>, n: nat)
    requires SyncsBehind(s.queue) && Run(s, moves).Some? && n <= |moves|
    ensures Run(s, moves[..n]).Some? && SyncsBehind(After(s, moves, n).queue)
  {
    if n == 0 {
      assert moves[..0] == [];
    } else {
      BehindAfter(s, moves, n - 1);
      RunStep(s, moves, n - 1);
      if moves[n - 1].Pop? { StillBehind(After(s, moves, n - 1), moves[n - 1].i, moves[n - 1].w); }
    }
  }

  // A queued disconnect stays, until one is popped on a node that has finished connecting.
  lemma BlockedStep(s: State, m: Move)
    requires Blocked(s) && Next(s, m).Some?
    requires m.Pop? && s.queue[m.i].msg.kind.Disconnect? ==> !Finished(s)
    ensures Blocked(Next(s, m).value)
  {
    var b :| 0 <= b < |s.queue| && Blocks(s.queue[b], false);
    if m.Pop? {
      var q := Process(s, m.i, m.w).queue;
      assert Blocks(q[if b == m.i then |s.queue| - 1 else if b < m.i then b else b - 1], false);
    } else {
      assert Next(s, m).value.queue[b] == s.queue[b];
    }
  }

  // The loss of a peer makes the node queue a disconnect for itself.
  lemma LossBlocks(s: State, m: Move)
    requires m.Pop? && Next(s, m).Some? && s.queue[m.i].msg.kind.LinkLost? && m.w.lostPeer
    ensures Blocked(Next(s, m).value)
  {
    var q := Next(s, m).value.queue;
    assert q[|s.queue| - 1] == Entry(2, Message(Disconnect, s.queue[m.i].msg.content));
  }

  // Between moves a and c no disconnect takes effect.
  ghost predicate NoneTakesEffect(s: State, moves: seq<Move>, a: nat, c: nat) {
    forall k: nat | a < k < c && k < |moves| && Run(s, moves[..k]).Some? && Popped(s, moves, k) == Some(Disconnect) ::
      !Finished(After(s, moves, k))
  }

  lemma BlockedOn(s: State, moves: seq<Move>, k: nat)
    requires k < |moves| && Run(s, moves).Some? && Run(s, moves[..k]).Some? && Blocked(After(s, moves, k))
    requires Popped(s, moves, k) == Some(Disconnect) ==> !Finished(After(s, moves, k))
    ensures Run(s, moves[..k + 1]).Some? && Blocked(After(s, moves, k + 1))
  {
    RunStep(s, moves, k);
    BlockedStep(After(s, moves, k), moves[k]);
  }

  lemma LossOn(s: State, moves: seq<Move>, a: nat)
    requires a < |moves| && Run(s, moves).Some? && Run(s, moves[..a]).Some?
    requires Popped(s, moves, a) == Some(LinkLost) && moves[a].w.lostPeer
    ensures Run(s, moves[..a + 1]).Some? && Blocked(After(s, moves, a + 1))
  {
    RunStep(s, moves, a);
    LossBlocks(After(s, moves, a), moves[a]);
  }

  lemma {:induction false} BlockedAfter(s: State, moves: seq<Move>, a: nat, c: nat, n: nat)
    requires a < n <= c < |moves| && Run(s, moves).Some? && Run(s, moves[..a]).Some? && NoneTakesEffect(s, moves, a, c)
    requires Popped(s, moves, a) == Some(LinkLost) && moves[a].w.lostPeer
    ensures Run(s, moves[..n]).Some? && Blocked(After(s, moves, n))
  {
    if n == a + 1 {
      LossOn(s, moves, a);
    } else {
      BlockedAfter(s, moves, a, c, n - 1);
      BlockedOn(s, moves, n - 1);
    }
  }

  /** The failover case: at some moment the node handles the loss of a peer, which makes it queue a disconnect for itself,
      and at some later moment it pops a connect, as its new gateway sends one, while no disconnect has taken effect in
      between. Then it never finishes connecting, whatever else is popped and arrives before, in between and afterwards. */
  lemma {:induction false} FailoverStalls(s: State, moves: seq<Move>, a: nat, c: nat)
    requires SyncsBehind(s.queue) && a < c < |moves| && Run(s, moves).Some?
    requires Run(s, moves[..a]).Some? && Popped(s, moves, a) == Some(LinkLost) && moves[a].w.lostPeer
    requires Run(s, moves[..c]).Some? && Popped(s, moves, c) == Some(Connect) && NoneTakesEffect(s, moves, a, c)
    ensures Stalled(Run(s, moves).value, false)
    decreases |moves|
  {
    var n := |moves| - 1;
    if c < n {
      PrefixAgain(s, moves, a, c);
      FailoverStalls(s, moves[..n], a, c);
      StallStep(Run(s, moves[..n]).value, false, moves[n]);
    } else {
      BehindAfter(s, moves, c);
      BlockedAfter(s, moves, a, c, c);
      ConnectOn(s, moves);
    }
  }

  lemma ConnectOn(s: State, moves: seq<Move>)
    requires moves != [] && Run(s, moves).Some? && Run(s, moves[..|moves| - 1]).Some?
    requires Popped(s, moves, |moves| - 1) == Some(Connect)
    requires SyncsBehind(After(s, moves, |moves| - 1).queue) && Blocked(After(s, moves, |moves| - 1))
    ensures Stalled(Run(s, moves).value, false)
  {
    var n := |moves| - 1;
    ConnectStallsIff(After(s, moves, n), moves[n].i, moves[n].w);
  }

  // What happens up to move c does not depend on the last move.
  lemma PrefixAgain(s: State, moves: seq<Move>, a: nat, c: nat)
    requires a < c < |moves| - 1 && Run(s, moves).Some? && NoneTakesEffect(s, moves, a, c)
    ensures moves[..|moves| - 1][..a] == moves[..a] && moves[..|moves| - 1][..c] == moves[..c]
    ensures NoneTakesEffect(s, moves[..|moves| - 1], a, c)
  {
    var m := moves[..|moves| - 1];
    forall k: nat | k <= c ensures m[..k] == moves[..k] { }
    forall k: nat | a < k < c && k < |m| && Run(s, m[..k]).Some? && Popped(s, m, k) == Some(Disconnect)
      ensures !Finished(After(s, m, k))
    {
      assert m[..k] == moves[..k] && Popped(s, m, k) == Popped(s, moves, k);
    }
  }

  // The counters cannot meet: no initial file is queued, or those queued are too few for the total, or too many have
  // been counted.
  ghost predicate Miscounted(s: State, total: nat) {
    && !Finished(s)
    && (forall i | 0 <= i < |s.queue| :: !s.queue[i].msg.kind.ResendRequest?)
    && ((forall i | 0 <= i < |s.queue| :: !s.queue[i].msg.kind.InitialSync?) ||
        (OneTotal(s.queue, total) && (total <= s.received || s.received + Syncs(s.queue) < total)))
  }

  // No connect is queued, and every initial file is in its place and names the same total.
  predicate OneTotal(q: seq<Entry>, total: nat) {
    forall i | 0 <= i < |q| ::
      var k := q[i].msg.kind; !k.Connect? && (k.InitialSync? ==> k.total == total && q[i].prio <= LOCK_PRIORITY)
  }

  lemma MiscountedStep(s: State, total: nat, i: nat, w: World)
    requires Miscounted(s, total) && i < |s.queue|
    ensures Miscounted(Process(s, i, w), total)
  {
    var q := Process(s, i, w).queue;
    forall j | 0 <= j < |q| ensures !q[j].msg.kind.ResendRequest? { FromQueue(s, i, w, j); }
    if forall j | 0 <= j < |s.queue| :: !s.queue[j].msg.kind.InitialSync? {
      forall j | 0 <= j < |q| ensures !q[j].msg.kind.InitialSync? { FromQueue(s, i, w, j); }
    } else {
      forall j | 0 <= j < |q|
        ensures var k := q[j].msg.kind; !k.Connect? && (k.InitialSync? ==> k.total == total && q[j].prio <= LOCK_PRIORITY)
      {
        FromQueue(s, i, w, j);
      }
      MiscountedSyncs(s, i, w);
    }
  }

  // Popping leaves one initial file less if it was one, and as many otherwise.
  lemma MiscountedSyncs(s: State, i: nat, w: World)
    requires i < |s.queue| && !Finished(s) && !s.queue[i].msg.kind.ResendRequest?
    ensures var e := s.queue[i];
      Syncs(Process(s, i, w).queue) ==
        Syncs(s.queue) - (if e.msg.kind.InitialSync? && e.prio <= LOCK_PRIORITY then 1 else 0)
  {
    var e, rest := s.queue[i], Without(s.queue, i);
    if !e.msg.kind.LinkLost? && !e.msg.kind.Disconnect? {
      ProcessCounts(s, i, w);
    } else {
      CountsWithout(s.queue, i);
      CountsOne(e);
      var back := if e.msg.kind.Disconnect? then [Entry(Deferred(e.msg.kind), e.msg)] else Enqueued(Own(e.msg, w));
      CountsAppend(rest, back);
      if |back| == 1 { CountsOne(back[0]); assert back == [back[0]]; }
    }
  }

  /** Without arrivals a node never finishes connecting if no initial file is queued, as when the network holds no file,
      nor if too few are queued for their total, nor if it has counted as many as that already. */
  lemma {:induction false} MiscountNeverFinishes(s: State, total: nat, moves: seq<Move>)
    requires Miscounted(s, total) && PopsOnly(moves) && Run(s, moves).Some?
    ensures Miscounted(Run(s, moves).value, total)
  {
    if moves != [] {
      var n := |moves| - 1;
      assert moves[n] in moves && PopsOnly(moves[..n]);
      MiscountNeverFinishes(s, total, moves[..n]);
      MiscountedStep(Run(s, moves[..n]).value, total, moves[n].i, moves[n].w);
    }
  }

  // -- Exactly when it finishes --

  // Every run of enough pops finishes the connection, within as many pops as there are entries ahead.
  ghost predicate AlwaysFinishes(s: State) {
    forall moves | PopsOnly(moves) && Run(s, moves).Some? && |moves| >= Ahead(s.queue) ::
      exists n: nat :: n <= Ahead(s.queue) && FinishesAt(s, moves, n)
  }

  // A world in which lost hosts were peers.
  const LOSING := World(true, [], {}, true, None)

  // n pops are always possible.
  lemma {:induction false} SomePops(s: State, n: nat) returns (moves: seq<Move>)
    requires n <= |s.queue|
    ensures |moves| == n && PopsOnly(moves) && (forall m | m in moves :: m.Pop? && m.w == LOSING)
    ensures Run(s, moves).Some? && |Run(s, moves).value.queue| >= |s.queue| - n
  {
    moves := [];
    if n > 0 {
      var before := SomePops(s, n - 1);
      var s1 := Run(s, before).value;
      var i := TopExists(s1.queue);
      moves := before + [Pop(i, LOSING)];
      assert moves[..|moves| - 1] == before;
    }
  }

  lemma {:induction false} AheadBound(q: seq<Entry>)
    ensures Ahead(q) <= |q|
  {
    if q != [] { AheadBound(q[..|q| - 1]); }
  }

  lemma {:induction false} StalledRun(s: State, moves: seq<Move>, n: nat)
    requires Stalled(s, true) && n <= |moves| && Run(s, moves).Some? && forall m | m in moves :: m.Pop? && m.w == LOSING
    ensures Run(s, moves[..n]).Some? && Stalled(Run(s, moves[..n]).value, true)
  {
    if n == 0 {
      assert moves[..0] == [];
    } else {
      StalledRun(s, moves, n - 1);
      RunStep(s, moves, n - 1);
      assert moves[n - 1] in moves;
      StallStep(Run(s, moves[..n - 1]).value, true, moves[n - 1]);
    }
  }

  // Without readiness no prefix of such a run finishes.
  lemma NotReadyNotFinished(s: State, total: nat, moves: seq<Move>, n: nat)
    requires !Finished(s) && AllOrderly(s.queue, total) && !Ready(s, total)
    requires n <= |moves| && Run(s, moves).Some? && forall m | m in moves :: m.Pop? && m.w == LOSING
    ensures !FinishesAt(s, moves, n)
  {
    if NoCut(s.queue) {
      forall i | 0 <= i < |s.queue|
        ensures var k := s.queue[i].msg.kind;
          !k.ResendRequest? && !k.Connect? && (k.InitialSync? ==> k.total == total && s.queue[i].prio <= LOCK_PRIORITY)
      {
        assert Orderly(s.queue[i], total);
      }
      RunPrefix(s, moves, n);
      MiscountNeverFinishes(s, total, moves[..n]);
    } else {
      var b :| 0 <= b < |s.queue| && Cut(s.queue[b].msg.kind);
      forall i | 0 <= i < |s.queue| ensures Orderly(s.queue[i], total) { }
      assert Blocks(s.queue[b], true);
      StalledRun(s, moves, n);
    }
  }

  /** A connecting node whose queue is orderly always finishes connecting if and only if nothing queued says that a node
      is gone and the initial files queued reach, but have not yet exceeded, their total. */
  lemma FinishesIff(s: State, total: nat)
    requires !Finished(s) && AllOrderly(s.queue, total)
    ensures AlwaysFinishes(s) <==> Ready(s, total)
  {
    if Ready(s, total) {
      forall moves | PopsOnly(moves) && Run(s, moves).Some? && |moves| >= Ahead(s.queue)
        ensures exists n: nat :: n <= Ahead(s.queue) && FinishesAt(s, moves, n)
      {
        DrainFinishes(s, total, moves);
      }
    } else {
      AheadBound(s.queue);
      var moves := SomePops(s, Ahead(s.queue));
      forall n: nat | n <= Ahead(s.queue) ensures !FinishesAt(s, moves, n) { NotReadyNotFinished(s, total, moves, n); }
    }
  }

  // -- The manager --

  lemma {:induction false} TopExists(q: seq<Entry>) returns (i: nat)
    requires q != []
    ensures IsTop(q, i)
  {
    if |q| == 1 {
      i := 0;
    } else {
      var k := TopExists(q[..|q| - 1]);
      i := if q[|q| - 1].prio < q[k].prio then |q| - 1 else k;
    }
  }

  // The entries of the files from position i on.
  lemma FilesEnqueued(w: World, i: nat)
    requires i < |w.files|
    ensures Enqueued(FilesFrom(w, i)) ==
      Enqueued([Message(InitialSync(|w.files|), w.files[i])])
      + (if w.files[i] in w.locked then Enqueued([Message(Lock, w.files[i])]) else []) + Enqueued(FilesFrom(w, i + 1))
  {
    var file := Message(InitialSync(|w.files|), w.files[i]);
    var lock := if w.files[i] in w.locked then [Message(Lock, w.files[i])] else [];
    EnqueuedAppend([file] + lock, FilesFrom(w, i + 1));
    EnqueuedAppend([file], lock);
  }

  class MessageManager {
    var queue: seq<Entry>        // in no particular order
    var received: nat            // receivedInitialFiles
    var total: nat               // totalInitialFiles
    var handled: seq<Message>    // oldMessages, without its bound

    function Value(): State
      reads this
    {
      State(queue, received, total, handled)
    }

    constructor ()
      ensures Value() == State([], 0, 1, []) && !Finished(Value())
    {
      queue, received, total, handled := [], 0, 1, [];
    }

    method Enqueue(prio: nat, msg: Message)
      modifies this`queue
      ensures queue == old(queue) + [Entry(prio, msg)]
    {
      queue := queue + [Entry(prio, msg)];
    }

    /** Pops any entry of minimal priority and processes it: it takes effect, or goes back into the queue. */
    method ProcessNextMessage(w: World) returns (top: Option<nat>)
      modifies this
      ensures top.None? <==> old(queue) == []
      ensures top.None? ==> Value() == old(Value())
      ensures top.Some? ==> IsTop(old(queue), top.value) && Value() == Process(old(Value()), top.value, w)
      ensures top.Some? && old(queue[top.value].msg.kind == Disconnect && received == total) ==>
        && |queue| >= |old(queue)| - 1 && Added(queue, old(Value()), top.value, queue[|old(queue)| - 1..])
        && UnlockEach(queue[|old(queue)| - 1..], w.files)
    {
      if queue == [] { return None; }
      ghost var least := TopExists(queue);
      var i: nat :| IsTop(queue, i);
      assert IsTop(queue, i);
      top := Some(i);
      var msg := queue[i].msg;
      if msg.kind == Disconnect && received == total { DisconnectUnlocks(Value(), i, w); }
      queue := Without(queue, i);
      var done := ProcessMessage(msg, w);
      if done { handled := handled + [msg]; } else { Enqueue(Deferred(msg.kind), msg); }
    }

    method IsFinishedConnecting() returns (r: bool)
      ensures r == Finished(Value())
    {
      r := received == total;
    }

    // A message that the node sends comes back to it.
    method Receive(msg: Message)
      modifies this`queue
      ensures queue == old(queue) + Enqueued([msg])
    {
      Enqueue(Fresh(msg.kind), msg);
    }

    // An unlock for every file, sent to the node itself.
    method SendUnlocks(files: seq<string>)
      modifies this`queue
      ensures queue == old(queue) + Enqueued(UnlocksOf(files))
    {
      for i := 0 to |files|
        invariant queue == old(queue) + Enqueued(UnlocksOf(files[..i]))
      {
        assert UnlocksOf(files[..i + 1]) == UnlocksOf(files[..i]) + [Message(Unlock, files[i])];
        EnqueuedAppend(UnlocksOf(files[..i]), [Message(Unlock, files[i])]);
        Receive(Message(Unlock, files[i]));
      }
      assert files[..|files|] == files;
    }

    // One managed file, and its lock.
    method SendFile(w: World, i: nat)
      requires i < |w.files|
      modifies this`queue
      ensures queue + Enqueued(FilesFrom(w, i + 1)) == old(queue) + Enqueued(FilesFrom(w, i))
    {
      FilesEnqueued(w, i);
      Receive(Message(InitialSync(|w.files|), w.files[i]));
      if w.files[i] in w.locked { Receive(Message(Lock, w.files[i])); }
    }

    // Every managed file and lock for a node that asked; without a link to it they are flooded, and come back.
    method SendFiles(w: World)
      modifies this`queue
      ensures queue == old(queue) + Enqueued(if w.linked then [] else FilesFrom(w, 0))
    {
      for i := 0 to |w.files|
        invariant w.linked ==> queue == old(queue)
        invariant !w.linked ==> queue + Enqueued(FilesFrom(w, i)) == old(queue) + Enqueued(FilesFrom(w, 0))
      {
        if !w.linked { SendFile(w, i); }
      }
      assert Enqueued(FilesFrom(w, |w.files|)) == [];
    }

    // The handlers. Each answers whether the message was processed.
    method ProcessMessage(msg: Message, w: World) returns (done: bool)
      modifies this
      ensures handled == old(handled) && done == (!Gated(msg.kind) || Finished(old(Value())))
      ensures received ==
        (if msg.kind.Connect? then 0 else if msg.kind.InitialSync? then old(received) + 1 else old(received))
      ensures total == (if msg.kind.Connect? then 1 else if msg.kind.InitialSync? then msg.kind.total else old(total))
      ensures queue == old(queue) + if done then Enqueued(Own(msg, w)) else []
      ensures done && msg.kind == Disconnect ==>
        queue[..|old(queue)|] == old(queue) && UnlockEach(queue[|old(queue)|..], w.files)
      ensures done && msg.kind == InitialSyncRequest && !w.linked ==>
        queue[..|old(queue)|] == old(queue) && FileEach(queue[|old(queue)|..], w, 0)
    {
      FilesFromMeans(w, 0);
      done := true;
      if Gated(msg.kind) { done := IsFinishedConnecting(); }
      if !done { return; }
      match msg.kind
      case InitialSync(n) =>
        total := n;
        received := received + 1;
      case Connect =>
        received := 0;
        total := 1;
      case Disconnect => SendUnlocks(w.files);
      case InitialSyncRequest => SendFiles(w);
      case LinkLost => if w.lostPeer { Receive(Message(Disconnect, msg.content)); }
      case ResendRequest => if w.copy.Some? { Receive(w.copy.value); }
      case _ =>
    }
  }

  lemma EnqueuedAppend(a: seq<Message>, b: seq<Message>)
    ensures Enqueued(a + b) == Enqueued(a) + Enqueued(b)
  {
  }
}
