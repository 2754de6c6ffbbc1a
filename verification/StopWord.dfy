/** The 64-bit word of a shared stop state: bit 0 says a stop was requested, bit 1 is a spin lock,
    bits 2-32 count tokens and attached callbacks, bits 33-63 count sources. */
module StopWord {

  const STOP_FLAG: nat := 1
  const LOCKED_FLAG: nat := 2
  const TOKEN_REF: nat := 4
  const SOURCE_REF: nat := 0x2_0000_0000
  const FIELD_LIMIT: nat := 0x8000_0000
  const TWO_TO_64: nat := 0x1_0000_0000_0000_0000

  // The atomic read-modify-write operations wrap around modulo 2^64.
  function FetchAdd(w: nat, d: nat): nat { (w + d) % TWO_TO_64 }
  function FetchSub(w: nat, d: nat): nat { (w - d) % TWO_TO_64 }

  predicate IsStopRequested(w: nat) { w % 2 == 1 }
  predicate IsLocked(w: nat) { (w / 2) % 2 == 1 }
  predicate IsStopRequestable(w: nat) { IsStopRequested(w) || w >= SOURCE_REF }

  // Bitwise or with a flag.
  function OrStop(w: nat): nat { if IsStopRequested(w) then w else w + STOP_FLAG }
  function OrLocked(w: nat): nat { if IsLocked(w) then w else w + LOCKED_FLAG }

  // The unsigned difference __locked_flag - __token_ref_increment.
  function LockedMinusToken(): nat { (LOCKED_FLAG - TOKEN_REF) % TWO_TO_64 }

  // The test that guards 'delete this' when a token or a source is dropped.
  predicate DropFrees(before: nat) { before < TOKEN_REF + SOURCE_REF }
  // The test that guards 'delete this' when a callback is unlinked.
  predicate UnlinkFrees(before: nat) { before < LOCKED_FLAG + TOKEN_REF + TOKEN_REF }

  function Bit(b: bool): nat { if b then 1 else 0 }

  /** The word the four fields stand for. */
  function Pack(stop: bool, locked: bool, refs: nat, sources: nat): nat {
    Bit(stop) + LOCKED_FLAG * Bit(locked) + TOKEN_REF * refs + SOURCE_REF * sources
  }

  predicate InRange(refs: nat, sources: nat) { refs < FIELD_LIMIT && sources < FIELD_LIMIT }

  /** Every field can be read back, so no field ever carries into another. */
  lemma FieldsReadBack(stop: bool, locked: bool, refs: nat, sources: nat)
    requires InRange(refs, sources)
    ensures var w := Pack(stop, locked, refs, sources);
      && w < TWO_TO_64
      && IsStopRequested(w) == stop
      && IsLocked(w) == locked
      && (w >= SOURCE_REF <==> sources > 0)
      && (w % SOURCE_REF) / TOKEN_REF == refs
      && w / SOURCE_REF == sources
  {
    var low := Bit(stop) + 2 * Bit(locked);
    var w := Pack(stop, locked, refs, sources);
    assert w == (low + 4 * refs) + SOURCE_REF * sources;
    assert 0 <= low + 4 * refs < SOURCE_REF;
    assert w / 2 == Bit(locked) + 2 * (refs + 0x8000_0000 * sources);
    assert w % 2 == Bit(stop);
    assert (w / 2) % 2 == Bit(locked);
  }

  lemma NoWrap(x: int, stop: bool, locked: bool, refs: nat, sources: nat)
    requires InRange(refs, sources) && x == Pack(stop, locked, refs, sources)
    ensures x % TWO_TO_64 == x
  {
  }

  lemma AddNoWrap(w: nat, d: nat, stop: bool, locked: bool, refs: nat, sources: nat)
    requires InRange(refs, sources) && w + d == Pack(stop, locked, refs, sources)
    ensures FetchAdd(w, d) == Pack(stop, locked, refs, sources)
  {
    NoWrap(w + d, stop, locked, refs, sources);
  }

  lemma SubNoWrap(w: nat, d: nat, stop: bool, locked: bool, refs: nat, sources: nat)
    requires InRange(refs, sources) && w - d == Pack(stop, locked, refs, sources)
    ensures FetchSub(w, d) == Pack(stop, locked, refs, sources)
  {
    NoWrap(w - d, stop, locked, refs, sources);
  }

  // Subtracting 2 - 4, taken modulo 2^64, adds 2: the lock bit goes and the token count gains one.
  lemma UnlockingAttach(stop: bool, refs: nat, sources: nat)
    requires InRange(refs + 1, sources)
    ensures FetchSub(Pack(stop, true, refs, sources), LockedMinusToken()) == Pack(stop, false, refs + 1, sources)
  {
    var w := Pack(stop, true, refs, sources);
    assert LockedMinusToken() == TWO_TO_64 - 2;
    NoWrap(w + 2, stop, false, refs + 1, sources);
    assert (w - (TWO_TO_64 - 2)) % TWO_TO_64 == (w + 2 - TWO_TO_64) % TWO_TO_64;
  }

  /** What each atomic update of the protocol does to the fields. */
  lemma UpdatesActOnFields(stop: bool, refs: nat, sources: nat)
    requires InRange(refs, sources)
    ensures OrLocked(Pack(stop, false, refs, sources)) == Pack(stop, true, refs, sources)
    ensures OrLocked(OrStop(Pack(false, false, refs, sources))) == Pack(true, true, refs, sources)
    ensures FetchSub(Pack(stop, true, refs, sources), LOCKED_FLAG) == Pack(stop, false, refs, sources)
    ensures InRange(refs + 1, sources) ==>
      FetchSub(Pack(stop, true, refs, sources), LockedMinusToken()) == Pack(stop, false, refs + 1, sources)
    ensures refs > 0 ==>
      FetchSub(Pack(stop, true, refs, sources), LOCKED_FLAG + TOKEN_REF) == Pack(stop, false, refs - 1, sources)
  {
    FieldsReadBack(stop, false, refs, sources);
    FieldsReadBack(false, false, refs, sources);
    FieldsReadBack(true, false, refs, sources);
    var w := Pack(stop, true, refs, sources);
    SubNoWrap(w, LOCKED_FLAG, stop, false, refs, sources);
    if InRange(refs + 1, sources) { UnlockingAttach(stop, refs, sources); }
    if refs > 0 { SubNoWrap(w, LOCKED_FLAG + TOKEN_REF, stop, false, refs - 1, sources); }
  }

  /** What copying or dropping a token or a source does to the fields. */
  lemma CountsActOnFields(stop: bool, locked: bool, refs: nat, sources: nat)
    requires InRange(refs, sources)
    ensures InRange(refs + 1, sources) ==>
      FetchAdd(Pack(stop, locked, refs, sources), TOKEN_REF) == Pack(stop, locked, refs + 1, sources)
    ensures InRange(refs, sources + 1) ==>
      FetchAdd(Pack(stop, locked, refs, sources), SOURCE_REF) == Pack(stop, locked, refs, sources + 1)
    ensures refs > 0 ==>
      FetchSub(Pack(stop, locked, refs, sources), TOKEN_REF) == Pack(stop, locked, refs - 1, sources)
    ensures sources > 0 ==>
      FetchSub(Pack(stop, locked, refs, sources), SOURCE_REF) == Pack(stop, locked, refs, sources - 1)
  {
    var w := Pack(stop, locked, refs, sources);
    if InRange(refs + 1, sources) { AddNoWrap(w, TOKEN_REF, stop, locked, refs + 1, sources); }
    if InRange(refs, sources + 1) { AddNoWrap(w, SOURCE_REF, stop, locked, refs, sources + 1); }
    if refs > 0 { SubNoWrap(w, TOKEN_REF, stop, locked, refs - 1, sources); }
    if sources > 0 { SubNoWrap(w, SOURCE_REF, stop, locked, refs, sources - 1); }
  }

  /** When the two free tests fire. Unlinking a callback and dropping a source free the state exactly
      when that was the last reference. Dropping a token frees it whenever no source is left. */
  lemma FreeTests(stop: bool, locked: bool, refs: nat, sources: nat)
    requires InRange(refs, sources)
    ensures refs > 0 ==> (UnlinkFrees(Pack(stop, true, refs, sources)) <==> refs == 1 && sources == 0)
    ensures sources > 0 ==> (DropFrees(Pack(stop, locked, refs, sources)) <==> refs == 0 && sources == 1)
    ensures refs > 0 ==> (DropFrees(Pack(stop, locked, refs, sources)) <==> sources == 0)
  {
    FieldsReadBack(stop, locked, refs, sources);
  }

  /** The token drop frees exactly at the last reference if and only if a source is left or this is the
      last reference. */
  lemma TokenDropIsExactIff(stop: bool, locked: bool, refs: nat, sources: nat)
    requires InRange(refs, sources) && refs > 0
    ensures (DropFrees(Pack(stop, locked, refs, sources)) <==> refs == 1 && sources == 0)
            <==> (sources > 0 || refs == 1)
  {
    FreeTests(stop, locked, refs, sources);
  }
}
