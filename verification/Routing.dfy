/** How one node of the overlay network routes a message. */
module Routing {

  // A host is named by its address.
  type Host = nat

  datatype Address = UnspecifiedV6 | UnspecifiedV4 | LoopbackV6 | LoopbackV4 | At(host: Host)

  predicate IsUnspecified(a: Address) { a.UnspecifiedV6? || a.UnspecifiedV4? }
  predicate IsLoopback(a: Address) { a.LoopbackV6? || a.LoopbackV4? }

  // What routing one message does: the peers it is sent to, in order, and whether it is processed locally.
  datatype Routed = Routed(sentTo: seq<Host>, local: bool)

  function Except(peers: seq<Host>, source: Address): seq<Host> {
    if peers == [] then []
    else (if At(peers[0]) != source then [peers[0]] else []) + Except(peers[1..], source)
  }

  function ForwardToAll(self: Host, peers: seq<Host>, source: Address): Routed {
    Routed(Except(peers, source), !IsLoopback(source) && source != At(self))
  }

  function Route(self: Host, peers: seq<Host>, destination: Address, source: Address): Routed {
    if IsUnspecified(destination) then ForwardToAll(self, peers, source)
    else if IsLoopback(destination) || destination == At(self) then Routed([], true)
    else if destination.host in peers then Routed([destination.host], false)
    else ForwardToAll(self, peers, source)
  }

  ghost predicate NoDuplicates(hosts: seq<Host>) { forall i, j | 0 <= i < j < |hosts| :: hosts[i] != hosts[j] }

  lemma {:induction false} ExceptHas(peers: seq<Host>, source: Address, w: Host)
    ensures w in Except(peers, source) <==> w in peers && At(w) != source
  {
    if peers != [] {
      ExceptHas(peers[1..], source, w);
      assert peers == [peers[0]] + peers[1..];
    }
  }

  lemma {:induction false} ExceptDistinct(peers: seq<Host>, source: Address)
    requires NoDuplicates(peers)
    ensures NoDuplicates(Except(peers, source))
  {
    if peers != [] {
      ExceptDistinct(peers[1..], source);
      ExceptHas(peers[1..], source, peers[0]);
    }
  }

  lemma {:induction false} ExceptAppend(xs: seq<Host>, x: Host, source: Address)
    ensures Except(xs + [x], source) == Except(xs, source) + (if At(x) != source then [x] else [])
  {
    if xs == [] {
      assert [] + [x] == [x];
    } else {
      assert (xs + [x])[1..] == xs[1..] + [x];
      ExceptAppend(xs[1..], x, source);
    }
  }
}
