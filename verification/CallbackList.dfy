/** The intrusive callback list of a stop state on the heap: __prev_ is the address of the link that reaches
    a node. Each critical section of the protocol is proved against the sequence of nodes. */
module CallbackList {
  import opened StopProtocol

  // An address of a link: the head pointer or some node's next pointer.
  datatype Link = NullLink | AtHead | AtNext(node: Node)

  class Node {
    var next: Node?
    var prev: Link

    constructor ()
      ensures next == null && prev == NullLink
    {
      next, prev := null, NullLink;
    }
  }

  class List {
    var head: Node?
    ghost var nodes: seq<Node>

    constructor ()
      ensures Valid() && nodes == []
    {
      head, nodes := null, [];
    }

    ghost predicate Valid()
      reads this, nodes
    {
      && (forall i, j | 0 <= i < j < |nodes| :: nodes[i] != nodes[j])
      && head == (if nodes == [] then null else nodes[0])
      && (forall i {:trigger nodes[i].next} | 0 <= i < |nodes| ::
            nodes[i].next == if i + 1 < |nodes| then nodes[i + 1] else null)
      && (forall i {:trigger nodes[i].prev} | 0 <= i < |nodes| ::
            nodes[i].prev == if i == 0 then AtHead else AtNext(nodes[i - 1]))
    }

    /** The registration: push in front. */
    method Push(cb: Node)
      requires Valid() && cb !in nodes
      modifies this, cb, nodes
      ensures Valid() && nodes == [cb] + old(nodes)
    {
      cb.next := head;
      if cb.next != null {
        cb.next.prev := AtNext(cb);
      }
      cb.prev := AtHead;
      head := cb;
      nodes := [cb] + nodes;
    }

    /** The signalling thread: take the first node and mark it as no longer in the list. */
    method PopFront() returns (cb: Node, anyMore: bool)
      requires Valid() && nodes != []
      modifies this, nodes
      ensures Valid() && nodes == old(nodes)[1..]
      ensures cb == old(nodes)[0] && cb.prev == NullLink && (anyMore <==> nodes != [])
    {
      cb := head;
      head := cb.next;
      anyMore := head != null;
      if anyMore {
        head.prev := AtHead;
      }
      cb.prev := NullLink;
      nodes := nodes[1..];
    }

    /** The deregistration: take a node out through the link that reaches it. A null __prev_ means that the
        node was dequeued. */
    method Unlink(cb: Node) returns (wasListed: bool)
      requires Valid() && (cb !in nodes ==> cb.prev == NullLink)
      modifies this, nodes
      ensures Valid() && (wasListed <==> cb in old(nodes)) && nodes == Remove(old(nodes), cb)
    {
      wasListed := cb.prev != NullLink;
      if wasListed {
        ghost var k :| 0 <= k < |nodes| && nodes[k] == cb;
        RemoveAt(nodes, k);
        TakeOut(cb, k);
      } else {
        RemoveNothing(nodes, cb);
      }
    }

    method TakeOut(cb: Node, ghost k: nat)
      requires Valid() && k < |nodes| && nodes[k] == cb
      modifies this, nodes
      ensures Valid() && nodes == old(nodes)[..k] + old(nodes)[k + 1..]
    {
      Bypass(cb, k);
      nodes := nodes[..k] + nodes[k + 1..];
    }

    // The pointer surgery: the links around node k skip it.
    method Bypass(cb: Node, ghost k: nat)
      requires Valid() && k < |nodes| && nodes[k] == cb
      modifies this`head, nodes
      ensures head == if k > 0 then old(head) else if k + 1 < |nodes| then nodes[k + 1] else null
      ensures forall i {:trigger nodes[i].next} | 0 <= i < |nodes| && i != k ::
        nodes[i].next == if i + 1 == k then old(cb.next) else old(nodes[i].next)
      ensures forall i {:trigger nodes[i].prev} | 0 <= i < |nodes| && i != k ::
        nodes[i].prev == if i == k + 1 then old(cb.prev) else old(nodes[i].prev)
    {
      match cb.prev {
        case AtHead => head := cb.next;
        case AtNext(before) => before.next := cb.next;
      }
      if cb.next != null {
        cb.next.prev := cb.prev;
      }
    }
  }

  lemma {:induction false} RemoveAt<T>(s: seq<T>, k: nat)
    requires k < |s| && forall i, j | 0 <= i < j < |s| :: s[i] != s[j]
    ensures Remove(s, s[k]) == s[..k] + s[k + 1..]
  {
    if k > 0 {
      RemoveAt(s[1..], k - 1);
      assert s[1..][..k - 1] == s[1..k];
      assert s[..k] == [s[0]] + s[1..k];
      assert s[1..][k..] == s[k + 1..];
    }
  }

  lemma {:induction false} RemoveNothing<T>(s: seq<T>, x: T)
    requires x !in s
    ensures Remove(s, x) == s
  {
    if s != [] { RemoveNothing(s[1..], x); }
  }
}
