/** One node of the overlay network: it routes messages, accepts connections and replaces a lost gateway. */
module PeerManager {
  import opened Wrappers
  import opened Routing

  type Data(==)

  // The part of a node's state that the shape of the network depends on.
  datatype Node = Node(peers: seq<Host>, gateway: Option<Host>, backups: seq<Host>)

  // The position of the first occurrence, or the length.
  function IndexOf(s: seq<Host>, x: Host): (k: nat)
    ensures k <= |s| && (k < |s| <==> x in s)
    ensures k < |s| ==> s[k] == x
    ensures forall i | 0 <= i < k :: s[i] != x
  {
    if s == [] || s[0] == x then 0 else 1 + IndexOf(s[1..], x)
  }

  function EraseAt(s: seq<Host>, k: nat): seq<Host>
    requires k < |s|
  {
    s[..k] + s[k + 1..]
  }

  // The first backup to which a connection succeeds; ok holds the positions at which the attempt would.
  function FirstReachable(backups: seq<Host>, ok: set<nat>, k: nat): (r: nat)
    requires k <= |backups|
    ensures k <= r <= |backups| && (r < |backups| ==> r in ok)
    ensures forall i | k <= i < r :: i !in ok
    decreases |backups| - k
  {
    if k == |backups| || k in ok then k else FirstReachable(backups, ok, k + 1)
  }

  /** Losing the link to a peer: the peer is dropped, and if it was the gateway the first backup that can be
      reached becomes the gateway, the first peer, and is no longer a backup. */
  function LoseLink(node: Node, lost: Host, ok: set<nat>): Node {
    if lost !in node.peers then node
    else
      var rest := EraseAt(node.peers, IndexOf(node.peers, lost));
      if node.gateway != Some(lost) then node.(peers := rest)
      else
        var k := FirstReachable(node.backups, ok, 0);
        if k == |node.backups| then Node(rest, None, node.backups)
        else Node([node.backups[k]] + rest, Some(node.backups[k]), EraseAt(node.backups, k))
  }

  // A loop that erases while it advances skips the element after each erased one.
  function ForgetFrom(backups: seq<Host>, gone: Host, i: nat): seq<Host>
    requires i <= |backups|
    decreases |backups| - i
  {
    if i == |backups| then backups
    else if backups[i] == gone then
      var rest := EraseAt(backups, i);
      if i == |rest| then rest else ForgetFrom(rest, gone, i + 1)
    else ForgetFrom(backups, gone, i + 1)
  }

  // x stands twice in a row, from position i on.
  predicate Doubled(backups: seq<Host>, x: Host, i: nat) {
    exists k | i <= k < |backups| - 1 :: backups[k] == x && backups[k + 1] == x
  }

  lemma ErasedOne(backups: seq<Host>, gone: Host, i: nat)
    requires i < |backups| && backups[i] == gone
    ensures var rest := EraseAt(backups, i);
      && rest[..i] == backups[..i] && (i < |rest| ==> rest[..i + 1] == backups[..i] + [backups[i + 1]])
      && forall b | b != gone :: b in rest <==> b in backups
  {
    assert backups == backups[..i] + [gone] + backups[i + 1..];
  }

  lemma DoubledErased(backups: seq<Host>, gone: Host, i: nat)
    requires i + 1 < |backups| && backups[i] == gone
    ensures Doubled(backups, gone, i) <==> backups[i + 1] == gone || Doubled(EraseAt(backups, i), gone, i + 1)
  {
    var rest := EraseAt(backups, i);
    forall k | i <= k < |rest| ensures rest[k] == backups[k + 1] { }
    if Doubled(backups, gone, i) && backups[i + 1] != gone {
      var k :| i <= k < |backups| - 1 && backups[k] == gone && backups[k + 1] == gone;
      assert rest[k - 1] == gone && rest[k] == gone;
    }
    if Doubled(rest, gone, i + 1) {
      var k :| i + 1 <= k < |rest| - 1 && rest[k] == gone && rest[k + 1] == gone;
      assert backups[k + 1] == gone && backups[k + 2] == gone;
    }
  }

  lemma {:induction false} ForgetFromIff(backups: seq<Host>, gone: Host, i: nat)
    requires i <= |backups|
    ensures gone in ForgetFrom(backups, gone, i) <==> gone in backups[..i] || Doubled(backups, gone, i)
    ensures forall b | b != gone :: b in ForgetFrom(backups, gone, i) <==> b in backups
    decreases |backups| - i
  {
    if i == |backups| {
      assert backups[..i] == backups;
    } else if backups[i] == gone {
      var rest := EraseAt(backups, i);
      ErasedOne(backups, gone, i);
      if i < |rest| {
        ForgetFromIff(rest, gone, i + 1);
        DoubledErased(backups, gone, i);
      }
    } else {
      assert backups[..i + 1] == backups[..i] + [backups[i]];
      ForgetFromIff(backups, gone, i + 1);
    }
  }

  // Every host of peers but the source has been sent the data once, and nothing else has been sent.
  ghost predicate SentToOthers(tail: seq<(Host, Data)>, peers: seq<Host>, source: Address, data: Data) {
    && (forall i | 0 <= i < |tail| :: tail[i].1 == data)
    && (forall w :: (w, data) in tail <==> w in peers && source != At(w))
    && (NoDuplicates(peers) ==> forall i, j | 0 <= i < j < |tail| :: tail[i].0 != tail[j].0)
  }

  function Tail(hosts: seq<Host>, data: Data): seq<(Host, Data)> {
    seq(|hosts|, i requires 0 <= i < |hosts| => (hosts[i], data))
  }

  lemma ExceptSent(peers: seq<Host>, source: Address, data: Data)
    ensures SentToOthers(Tail(Except(peers, source), data), peers, source, data)
  {
    var hosts := Except(peers, source);
    var tail := Tail(hosts, data);
    if NoDuplicates(peers) { ExceptDistinct(peers, source); }
    forall w ensures (w, data) in tail <==> w in peers && source != At(w) {
      ExceptHas(peers, source, w);
      if w in hosts {
        var i :| 0 <= i < |hosts| && hosts[i] == w;
        assert tail[i] == (w, data);
      }
    }
  }

  /** The new gateway is the first backup that can be reached: it stands first among the peers and leaves the backups, the
      lost peer leaves the peers, and all others stay in their order. */
  lemma LoseLinkMeans(node: Node, lost: Host, ok: set<nat>) returns (k: nat, j: nat)
    ensures var after := LoseLink(node, lost, ok);
      if lost !in node.peers then after == node
      else
        && k < |node.peers| && node.peers[k] == lost && lost !in node.peers[..k]
        && var rest := node.peers[..k] + node.peers[k + 1..];
          if node.gateway != Some(lost) then after == Node(rest, node.gateway, node.backups)
          else if forall i | 0 <= i < |node.backups| :: i !in ok then after == Node(rest, None, node.backups)
          else
            && j < |node.backups| && j in ok && (forall i | 0 <= i < j :: i !in ok)
            && after == Node([node.backups[j]] + rest, Some(node.backups[j]), node.backups[..j] + node.backups[j + 1..])
  {
    k, j := IndexOf(node.peers, lost), FirstReachable(node.backups, ok, 0);
  }

  class PeerManager {
    const self: Host
    var peers: seq<Host>
    var gateway: Option<Host>
    var backups: seq<Host>
    var sent: seq<(Host, Data)>   // handed to the sockets of peers
    var processed: seq<Data>      // handed to the local message queue

    constructor (self: Host)
      ensures this.self == self && Value() == Node([], None, []) && sent == [] && processed == []
    {
      this.self := self;
      peers, gateway, backups, sent, processed := [], None, [], [], [];
    }

    function Value(): Node
      reads this
    {
      Node(peers, gateway, backups)
    }

    // The history after one more message has been routed.
    ghost function Outgoing(data: Data, routed: Routed): seq<(Host, Data)>
      reads this
    {
      sent + Tail(routed.sentTo, data)
    }

    /** routeData does what Route says. A message for this node or the loopback address is processed here and not sent; one
        for a peer is sent to it, once, and not processed here; any other is sent to every peer but the source, and
        processed here unless this node or the loopback address is the source. */
    method RouteData(data: Data, destination: Address, source: Address)
      modifies this`sent, this`processed
      ensures sent == old(Outgoing(data, Route(self, peers, destination, source)))
      ensures processed == old(processed) + if Route(self, peers, destination, source).local then [data] else []
      ensures if destination == LoopbackV6 || destination == LoopbackV4 || destination == At(self) then
          sent == old(sent) && processed == old(processed) + [data]
        else if destination.At? && destination.host in peers then
          sent == old(sent) + [(destination.host, data)] && processed == old(processed)
        else
          && |old(sent)| <= |sent| && sent[..|old(sent)|] == old(sent)
          && SentToOthers(sent[|old(sent)|..], peers, source, data)
          && processed == old(processed) +
               if source == LoopbackV6 || source == LoopbackV4 || source == At(self) then [] else [data]
    {
      ExceptSent(peers, source, data);
      if IsUnspecified(destination) {
        ForwardToAll(data, source);
      } else if IsLoopback(destination) || destination == At(self) {
        processed := processed + [data];
      } else {
        var directLink := false;
        var i := 0;
        while i < |peers| && !directLink
          invariant 0 <= i <= |peers|
          invariant directLink <==> destination.host in peers[..i]
          invariant processed == old(processed)
          invariant sent == old(sent) + if directLink then [(destination.host, data)] else []
        {
          if At(peers[i]) == destination {
            sent := sent + [(peers[i], data)];
            directLink := true;
          }
          i := i + 1;
        }
        if !directLink {
          assert peers[..i] == peers;
          ForwardToAll(data, source);
        }
      }
    }

    // The lambda forward2all.
    method ForwardToAll(data: Data, source: Address)
      modifies this`sent, this`processed
      ensures sent == old(Outgoing(data, Routing.ForwardToAll(self, peers, source)))
      ensures processed == old(processed) + if Routing.ForwardToAll(self, peers, source).local then [data] else []
    {
      var i := 0;
      while i < |peers|
        invariant 0 <= i <= |peers|
        invariant processed == old(processed)
        invariant sent == old(Outgoing(data, Routed(Except(peers[..i], source), false)))
      {
        if At(peers[i]) != source {
          sent := sent + [(peers[i], data)];
        }
        assert peers[..i + 1] == peers[..i] + [peers[i]];
        ExceptAppend(peers[..i], peers[i], source);
        i := i + 1;
      }
      assert peers[..i] == peers;
      if !(IsLoopback(source) || source == At(self)) {
        processed := processed + [data];
      }
    }

    /** One turn of the accept loop: the newcomer's backups are all peers accepted so far. */
    method Accept(newcomer: Host) returns (backupsForPeer: seq<Host>)
      modifies this`peers
      ensures backupsForPeer == old(peers) && peers == old(peers) + [newcomer]
    {
      backupsForPeer := [];
      for i := 0 to |peers|
        invariant backupsForPeer == peers[..i]
      {
        backupsForPeer := backupsForPeer + [peers[i]];
      }
      peers := peers + [newcomer];
    }

    method ProcessConnect(backups: seq<Host>)
      modifies this`backups
      ensures Value() == old(Value()).(backups := backups)
    {
      this.backups := backups;
    }

    /** processLinkLostMessage; the result is the host whose disconnect is announced, if it was a peer. */
    method ProcessLinkLost(lost: Host, ok: set<nat>) returns (announced: Option<Host>)
      modifies this`peers, this`gateway, this`backups
      ensures Value() == LoseLink(old(Value()), lost, ok)
      ensures announced == if lost in old(peers) then Some(lost) else None
    {
      announced := None;
      var index := 0;
      while index < |peers| && peers[index] != lost
        invariant 0 <= index <= |peers|
        invariant forall i | 0 <= i < index :: peers[i] != lost
      {
        index := index + 1;
      }
      if index < |peers| {
        announced := Some(lost);
        peers := EraseAt(peers, index);
        if gateway == Some(lost) {
          gateway := None;
          var k := 0;
          while k < |backups|
            invariant 0 <= k <= |backups|
            invariant FirstReachable(backups, ok, 0) == FirstReachable(backups, ok, k)
            invariant gateway == None && peers == EraseAt(old(peers), index) && backups == old(backups)
          {
            if k in ok {
              peers := [backups[k]] + peers;
              gateway := Some(backups[k]);
              backups := EraseAt(backups, k);
              return;
            }
            k := k + 1;
          }
        }
      }
    }

    /** The backup loop of processDisconnectMessage. */
    method ProcessDisconnect(gone: Host)
      modifies this`backups
      ensures Value() == old(Value()).(backups := ForgetFrom(old(backups), gone, 0))
      ensures gone in backups <==> Doubled(old(backups), gone, 0)
      ensures forall b | b != gone :: b in backups <==> b in old(backups)
    {
      ForgetFromIff(backups, gone, 0);
      var i := 0;
      while i < |backups|
        invariant 0 <= i <= |backups| || i == |backups| + 1
        invariant ForgetFrom(old(backups), gone, 0) == if i <= |backups| then ForgetFrom(backups, gone, i) else backups
        decreases |backups| + 1 - i
      {
        if backups[i] == gone {
          backups := EraseAt(backups, i);
        }
        i := i + 1;
      }
    }
  }
}
