/** The listening loop of a peer: it cuts the byte stream of a socket into messages. Each message is preceded by its
    length, as eight bytes with the lowest first. */
module Framing {
  type Byte = x: int | 0 <= x < 256

  // -- The wire format --

  function ToBytes(n: nat, k: nat): (s: seq<Byte>)
    ensures |s| == k
  {
    if k == 0 then [] else [n % 256] + ToBytes(n / 256, k - 1)
  }

  function FromBytes(s: seq<Byte>): nat { if s == [] then 0 else s[0] + 256 * FromBytes(s[1..]) }

  // n can be written in k bytes.
  predicate Fits(n: nat, k: nat) { if k == 0 then n == 0 else Fits(n / 256, k - 1) }

  lemma {:induction false} BytesRoundTrip(n: nat, k: nat)
    requires Fits(n, k)
    ensures FromBytes(ToBytes(n, k)) == n
  {
    if k > 0 {
      BytesRoundTrip(n / 256, k - 1);
      assert ToBytes(n, k)[1..] == ToBytes(n / 256, k - 1);
    }
  }

  const HEADER := 8

  function Frame(payload: seq<Byte>): seq<Byte> { ToBytes(|payload|, HEADER) + payload }

  function Encode(payloads: seq<seq<Byte>>): seq<Byte> {
    if payloads == [] then [] else Frame(payloads[0]) + Encode(payloads[1..])
  }

  // What the sender must keep to: a serialized message is at least as long as a length, and its length fits into one.
  predicate Sendable(payload: seq<Byte>) { |payload| >= HEADER && Fits(|payload|, HEADER) }

  /** The payloads whose frames are complete within the first n bytes. */
  function Delivered(payloads: seq<seq<Byte>>, n: int): seq<seq<Byte>> {
    if payloads == [] || n < |Frame(payloads[0])| then []
    else [payloads[0]] + Delivered(payloads[1..], n - |Frame(payloads[0])|)
  }

  /** All bytes together deliver all payloads. */
  lemma {:induction false} AllDelivered(payloads: seq<seq<Byte>>)
    ensures Delivered(payloads, |Encode(payloads)|) == payloads
  {
    if payloads != [] { AllDelivered(payloads[1..]); }
  }

  lemma {:induction false} DeliveredSplit(payloads: seq<seq<Byte>>, j: nat, n: int)
    requires j <= |payloads| && n >= |Encode(payloads[..j])|
    ensures Delivered(payloads, n) == payloads[..j] + Delivered(payloads[j..], n - |Encode(payloads[..j])|)
    decreases j
  {
    if j == 0 {
      assert payloads[..0] == [] && payloads[0..] == payloads;
    } else {
      var rest := payloads[1..];
      assert payloads[..j] == [payloads[0]] + rest[..j - 1];
      assert payloads[..j][1..] == rest[..j - 1] && payloads[j..] == rest[j - 1..];
      DeliveredSplit(rest, j - 1, n - |Frame(payloads[0])|);
    }
  }

  lemma {:induction false} EncodeSplit(payloads: seq<seq<Byte>>, j: nat)
    requires j <= |payloads|
    ensures Encode(payloads) == Encode(payloads[..j]) + Encode(payloads[j..])
    decreases j
  {
    if j == 0 {
      assert payloads[..0] == [] && payloads[0..] == payloads;
    } else {
      var rest := payloads[1..];
      EncodeSplit(rest, j - 1);
      assert payloads[..j][1..] == rest[..j - 1] && payloads[j..] == rest[j - 1..];
    }
  }

  lemma EncodeNext(payloads: seq<seq<Byte>>, j: nat)
    requires j < |payloads|
    ensures Encode(payloads[..j + 1]) == Encode(payloads[..j]) + Frame(payloads[j])
  {
    EncodeSplit(payloads[..j + 1], j);
    assert payloads[..j + 1][..j] == payloads[..j] && payloads[..j + 1][j..] == [payloads[j]];
    assert Encode([payloads[j]]) == Frame(payloads[j]) + Encode([]);
  }

  // -- The socket --

  // One turn of the loop: nothing to read, an error that is only printed, the loss of the connection, or a receive that
  // gives at most k bytes.
  datatype Turn = Quiet | Error | Lost | Ready(k: nat)

  // How many receives give at least one byte, before the connection is lost.
  function Receives(turns: seq<Turn>): nat {
    if turns == [] || turns[0] == Lost then 0
    else (if turns[0].Ready? && turns[0].k > 0 then 1 else 0) + Receives(turns[1..])
  }

  function Min(a: nat, b: nat): nat { if a < b then a else b }

  lemma ReceivesStep(turns: seq<Turn>, i: nat)
    requires i < |turns|
    ensures Receives(turns[i..]) ==
      if turns[i] == Lost then 0 else (if turns[i].Ready? && turns[i].k > 0 then 1 else 0) + Receives(turns[i + 1..])
    ensures Lost in turns[..i + 1] <==> Lost in turns[..i] || turns[i] == Lost
  {
    assert turns[i..][1..] == turns[i + 1..];
    assert turns[..i + 1] == turns[..i] + [turns[i]];
  }

  // Where the loop stands after a read: it has passed j frames and has read n bytes of the stream.
  ghost predicate Reading(payloads: seq<seq<Byte>>, stream: seq<Byte>, j: nat, n: nat, buffer: seq<Byte>, size: nat,
                          received: nat) {
    && stream == Encode(payloads) && j <= |payloads| && n <= |stream|
    && |buffer| >= HEADER && received <= (if size == 0 then HEADER else size) && (size != 0 ==> size == |buffer|)
    && var base := |Encode(payloads[..j])| + (if size == 0 then 0 else HEADER);
       && n == base + received && buffer[..received] == stream[base..n]
       && (size != 0 ==> j < |payloads| && size == |payloads[j]|)
  }

  // Between turns it waits for at least one more byte.
  ghost predicate Standing(payloads: seq<seq<Byte>>, stream: seq<Byte>, j: nat, n: nat, buffer: seq<Byte>, size: nat,
                           received: nat) {
    Reading(payloads, stream, j, n, buffer, size, received) && received < if size == 0 then HEADER else size
  }

  lemma ReadOn(payloads: seq<seq<Byte>>, stream: seq<Byte>, j: nat, n: nat, buffer: seq<Byte>, size: nat, received: nat,
               got: nat, buffer2: seq<Byte>)
    requires Standing(payloads, stream, j, n, buffer, size, received) && |buffer2| == |buffer|
    requires received + got <= (if size == 0 then HEADER else size) && n + got <= |stream|
    requires buffer2[..received] == buffer[..received] && buffer2[received..received + got] == stream[n..n + got]
    ensures Reading(payloads, stream, j, n + got, buffer2, size, received + got)
  {
    var base := |Encode(payloads[..j])| + (if size == 0 then 0 else HEADER);
    assert buffer2[..received + got] == buffer2[..received] + buffer2[received..received + got];
    assert stream[base..n + got] == stream[base..n] + stream[n..n + got];
  }

  // Frame j of the stream.
  lemma FrameAt(payloads: seq<seq<Byte>>, j: nat)
    requires j <= |payloads|
    ensures var stream, base := Encode(payloads), |Encode(payloads[..j])|;
      && base <= |stream|
      && (j < |payloads| ==>
            && base + HEADER + |payloads[j]| <= |stream|
            && stream[base..base + HEADER] == ToBytes(|payloads[j]|, HEADER)
            && stream[base + HEADER..base + HEADER + |payloads[j]|] == payloads[j])
      && (j == |payloads| ==> base == |stream|)
  {
    EncodeSplit(payloads, j);
    var base, tail := |Encode(payloads[..j])|, Encode(payloads[j..]);
    if j < |payloads| {
      var p := payloads[j];
      assert tail == ToBytes(|p|, HEADER) + p + Encode(payloads[j..][1..]);
      assert tail[..HEADER] == ToBytes(|p|, HEADER) && tail[HEADER..HEADER + |p|] == p;
    }
  }

  // Eight bytes of a header give the length of the next payload.
  lemma HeaderRead(payloads: seq<seq<Byte>>, stream: seq<Byte>, j: nat, n: nat, buffer: seq<Byte>)
    requires Reading(payloads, stream, j, n, buffer, 0, HEADER) && forall p | p in payloads :: Sendable(p)
    ensures j < |payloads| && FromBytes(buffer[..HEADER]) == |payloads[j]| >= HEADER
  {
    FrameAt(payloads, j);
    assert j < |payloads|;
    assert Sendable(payloads[j]);
    BytesRoundTrip(|payloads[j]|, HEADER);
  }

  // A full buffer holds the next payload.
  lemma PayloadRead(payloads: seq<seq<Byte>>, stream: seq<Byte>, j: nat, n: nat, buffer: seq<Byte>)
    requires Reading(payloads, stream, j, n, buffer, |buffer|, |buffer|)
    ensures buffer == payloads[j] && Standing(payloads, stream, j + 1, n, buffer, 0, 0)
  {
    FrameAt(payloads, j);
    EncodeNext(payloads, j);
  }

  // What has been delivered so far are the frames passed.
  lemma StandingDelivered(payloads: seq<seq<Byte>>, stream: seq<Byte>, j: nat, n: nat, buffer: seq<Byte>, size: nat,
                          received: nat)
    requires Standing(payloads, stream, j, n, buffer, size, received)
    ensures Delivered(payloads, n) == payloads[..j]
  {
    var base := |Encode(payloads[..j])|;
    DeliveredSplit(payloads, j, n);
    assert Delivered(payloads[j..], n - base) == [];
    assert payloads[..j] + [] == payloads[..j];
  }

  class Listener {
    var buffer: array<Byte>
    var processed: seq<seq<Byte>>   // the messages handed on so far
    var linkLost: bool              // whether the loss of the link has been queued

    constructor ()
      ensures fresh(buffer) && buffer.Length == 30 && processed == [] && !linkLost
    {
      buffer := new Byte[30](_ => 0);
      processed, linkLost := [], false;
    }

    // Reads at most room bytes of the stream, from position n on, into the buffer.
    method Receive(stream: seq<Byte>, n: nat, offset: nat, room: nat, k: nat) returns (got: nat)
      requires n <= |stream| && offset + room <= buffer.Length
      modifies buffer
      ensures got == Min(k, Min(room, |stream| - n))
      ensures buffer[..offset] == old(buffer[..offset]) && buffer[offset..offset + got] == stream[n..n + got]
    {
      got := Min(k, Min(room, |stream| - n));
      for i := 0 to got
        invariant buffer[..offset] == old(buffer[..offset])
        invariant buffer[offset..offset + i] == stream[n..n + i]
      {
        buffer[offset + i] := stream[n + i];
        assert buffer[offset..offset + i + 1] == stream[n..n + i] + [stream[n + i]];
      }
    }

    method Resize(size: nat)
      modifies this`buffer
      ensures fresh(buffer) && buffer.Length == size
      ensures buffer[..Min(size, old(buffer).Length)] == old(buffer[..Min(size, buffer.Length)])
    {
      var was := buffer[..];
      buffer := new Byte[size](i => if 0 <= i < |was| then was[i] else 0);
    }

    // Data is ready while the length of the next message is not known yet.
    method ReadHeader(stream: seq<Byte>, n: nat, received: nat, k: nat, ghost payloads: seq<seq<Byte>>, ghost j: nat)
      returns (n2: nat, size: nat, received2: nat)
      requires Standing(payloads, stream, j, n, buffer[..], 0, received)
      requires forall p | p in payloads :: Sendable(p)
      modifies this`buffer, buffer
      ensures n2 == n + Min(k, Min(HEADER - received, |stream| - n))
      ensures Standing(payloads, stream, j, n2, buffer[..], size, received2)
      ensures buffer == old(buffer) || fresh(buffer)
    {
      var got := Receive(stream, n, received, HEADER - received, k);
      n2, size, received2 := n + got, 0, received + got;
      ReadOn(payloads, stream, j, n, old(buffer[..]), 0, received, got, buffer[..]);
      if received2 >= HEADER {
        HeaderRead(payloads, stream, j, n2, buffer[..]);
        size := FromBytes(buffer[..HEADER]);
        received2 := received2 - HEADER;   // nothing is left over, so there is nothing to move
        Resize(size);
      }
    }

    // Data is ready while a message is being received.
    method ReadPayload(stream: seq<Byte>, n: nat, size: nat, received: nat, k: nat, ghost payloads: seq<seq<Byte>>,
                       ghost j: nat)
      returns (n2: nat, size2: nat, received2: nat, ghost j2: nat)
      requires size > 0 && Standing(payloads, stream, j, n, buffer[..], size, received)
      modifies buffer, this`processed
      ensures n2 == n + Min(k, Min(size - received, |stream| - n))
      ensures Standing(payloads, stream, j2, n2, buffer[..], size2, received2)
      ensures j <= j2 <= |payloads| && processed == old(processed) + payloads[j..j2]
    {
      var got := Receive(stream, n, received, buffer.Length - received, k);
      n2, size2, received2, j2 := n + got, size, received + got, j;
      ReadOn(payloads, stream, j, n, old(buffer[..]), size, received, got, buffer[..]);
      if received2 >= size {
        PayloadRead(payloads, stream, j, n2, buffer[..]);
        processed := processed + [buffer[..size]];
        received2, size2, j2 := received2 - size, 0, j + 1;   // again, nothing to move
        assert buffer[..size] == buffer[..] && payloads[j..j + 1] == [payloads[j]];
      }
    }

    // Data is ready.
    method Read(stream: seq<Byte>, n: nat, size: nat, received: nat, k: nat, ghost payloads: seq<seq<Byte>>, ghost j: nat)
      returns (n2: nat, size2: nat, received2: nat, ghost j2: nat)
      requires Standing(payloads, stream, j, n, buffer[..], size, received) && processed == payloads[..j]
      requires forall p | p in payloads :: Sendable(p)
      modifies this`buffer, buffer, this`processed
      ensures n <= n2 <= |stream| && (k > 0 && n < |stream| ==> n < n2)
      ensures Standing(payloads, stream, j2, n2, buffer[..], size2, received2) && processed == payloads[..j2]
      ensures buffer == old(buffer) || fresh(buffer)
    {
      if size == 0 {
        n2, size2, received2 := ReadHeader(stream, n, received, k, payloads, j);
        j2 := j;
      } else {
        n2, size2, received2, j2 := ReadPayload(stream, n, size, received, k, payloads, j);
        assert payloads[..j] + payloads[j..j2] == payloads[..j2];
      }
    }

    /** The loop. Whatever the turns are and however they cut up the stream, the messages handed on are exactly those whose
        frames are complete in the bytes read, in order; and every read makes progress. The reads stay inside the buffer
        because no message is shorter than a header. */
    method ThreadFunction(turns: seq<Turn>, stream: seq<Byte>, ghost payloads: seq<seq<Byte>>) returns (n: nat)
      requires buffer.Length >= HEADER && processed == [] && !linkLost
      requires stream == Encode(payloads) && forall p | p in payloads :: Sendable(p)
      modifies this, buffer
      ensures n <= |stream| && processed == Delivered(payloads, n)
      ensures linkLost <==> Lost in turns
      ensures n >= Min(|stream|, Receives(turns))
    {
      var dataSize: nat, dataReceived: nat := 0, 0;
      n := 0;
      ghost var j: nat := 0;
      assert payloads[..0] == [];
      for i := 0 to |turns|
        invariant Standing(payloads, stream, j, n, buffer[..], dataSize, dataReceived)
        invariant processed == payloads[..j] && !linkLost && Lost !in turns[..i]
        invariant buffer == old(buffer) || fresh(buffer)
        invariant Min(|stream|, n + Receives(turns[i..])) >= Min(|stream|, Receives(turns))
      {
        StandingDelivered(payloads, stream, j, n, buffer[..], dataSize, dataReceived);
        ReceivesStep(turns, i);
        match turns[i]
        case Quiet =>
        case Error =>
        case Lost =>
          linkLost := true;
          return;
        case Ready(k) =>
          n, dataSize, dataReceived, j := Read(stream, n, dataSize, dataReceived, k, payloads, j);
      }
      StandingDelivered(payloads, stream, j, n, buffer[..], dataSize, dataReceived);
      assert turns[..|turns|] == turns;
    }
  }
}
