/**
 Packed order ids: [venue:8][generation:16][slot:24][sequence:16] in 64 bits.

 The machine word is a natural below 2^64. A right shift by k is division by 2^k, a mask of k
 low bits is a remainder modulo 2^k, and the bitwise or of disjoint fields is their sum:
 EncodeIsShifts and DecodeIsShifts prove it from the bits, and ShiftOrIsSum on 64-bit vectors.
 */
module OrderIds {
  import opened Arithmetic

  const VENUES: nat := 0x100
  const GENERATIONS: nat := 0x1_0000
  const MAX_SLOTS: nat := 0x100_0000
  const SEQUENCES: nat := 0x1_0000

  const SLOT_UNIT: nat := 0x1_0000
  const GENERATION_UNIT: nat := 0x100_0000_0000
  const VENUE_UNIT: nat := 0x100_0000_0000_0000
  const WORD: nat := 0x1_0000_0000_0000_0000

  /** The decoded view of an id. Only ids in range (see InRange) occur in a run. */
  datatype OrderId = OrderId(venue: nat, generation: nat, slot: nat, sequence: nat)

  predicate InRange(id: OrderId) {
    id.venue < VENUES && id.generation < GENERATIONS && id.slot < MAX_SLOTS && id.sequence < SEQUENCES
  }

  /** Packs the fields; the slot is masked to its 24 bits, the others already have their width. */
  function Encode(venue: nat, generation: nat, slot: nat, sequence: nat): nat {
    venue * VENUE_UNIT + generation * GENERATION_UNIT + (slot % MAX_SLOTS) * SLOT_UNIT + sequence
  }

  function Decode(raw: nat): OrderId {
    OrderId((raw / VENUE_UNIT) % VENUES, (raw / GENERATION_UNIT) % GENERATIONS,
            (raw / SLOT_UNIT) % MAX_SLOTS, raw % SEQUENCES)
  }

  function EncodeId(id: OrderId): nat {
    Encode(id.venue, id.generation, id.slot, id.sequence)
  }

  /** Decoding an encoding returns the fields, the slot reduced to 24 bits. */
  lemma DecodeEncode(venue: nat, generation: nat, slot: nat, sequence: nat)
    requires venue < VENUES && generation < GENERATIONS && sequence < SEQUENCES
    ensures Encode(venue, generation, slot, sequence) < WORD
    ensures Decode(Encode(venue, generation, slot, sequence))
         == OrderId(venue, generation, slot % MAX_SLOTS, sequence)
  {
    var s := slot % MAX_SLOTS;
    var raw := Encode(venue, generation, slot, sequence);
    assert raw / VENUE_UNIT == venue;
    assert raw / GENERATION_UNIT == venue * GENERATIONS + generation;
    assert raw / SLOT_UNIT == (venue * GENERATIONS + generation) * MAX_SLOTS + s;
  }

  /** Encoding a decoded word returns that word: the fields cover all 64 bits. */
  lemma EncodeDecode(raw: nat)
    requires raw < WORD
    ensures InRange(Decode(raw))
    ensures EncodeId(Decode(raw)) == raw
  {
    assert (raw / SLOT_UNIT) / MAX_SLOTS == raw / GENERATION_UNIT;
    assert (raw / GENERATION_UNIT) / GENERATIONS == raw / VENUE_UNIT;
    assert raw / VENUE_UNIT < VENUES;
  }

  lemma RoundTrip(id: OrderId)
    requires InRange(id)
    ensures EncodeId(id) < WORD && Decode(EncodeId(id)) == id
  {
    DecodeEncode(id.venue, id.generation, id.slot, id.sequence);
  }

  /** On ids in range the packing loses nothing, so distinct ids are distinct words. */
  lemma EncodeInjective(a: OrderId, b: OrderId)
    requires InRange(a) && InRange(b)
    ensures EncodeId(a) == EncodeId(b) <==> a == b
  {
    RoundTrip(a);
    RoundTrip(b);
    hide *;
  }

  /** Only the id with every field zero packs to the word 0, which callers read as "no order". */
  lemma ZeroWord(id: OrderId)
    requires InRange(id)
    ensures EncodeId(id) == 0 <==> id == OrderId(0, 0, 0, 0)
  {
    EncodeInjective(id, OrderId(0, 0, 0, 0));
  }

  /** On 64-bit words the shifted fields do not overlap, so or-ing them adds them. */
  lemma ShiftOrIsSum(venue: bv64, generation: bv64, slot: bv64, sequence: bv64)
    requires venue < 0x100 && generation < 0x1_0000 && sequence < 0x1_0000
    ensures (venue << 56) | (generation << 40) | ((slot & 0xFF_FFFF) << 16) | sequence
         == (venue << 56) + (generation << 40) + ((slot & 0xFF_FFFF) << 16) + sequence
  {
  }
  // ---- the packing in terms of shifts and masks ----

  function Pow2(k: nat): (p: nat)
    ensures p > 0
  {
    if k == 0 then 1 else 2 * Pow2(k - 1)
  }

  function Shl(a: nat, k: nat): nat {
    if k == 0 then a else 2 * Shl(a, k - 1)
  }

  function Shr(a: nat, k: nat): nat {
    if k == 0 then a else Shr(a, k - 1) / 2
  }

  /** Bitwise or of two words. */
  function Or(a: nat, b: nat): nat {
    if a == 0 then b
    else if b == 0 then a
    else 2 * Or(a / 2, b / 2) + (if a % 2 == 1 || b % 2 == 1 then 1 else 0)
  }

  /** Bitwise and of two words. */
  function And(a: nat, b: nat): nat {
    if a == 0 || b == 0 then 0
    else 2 * And(a / 2, b / 2) + (if a % 2 == 1 && b % 2 == 1 then 1 else 0)
  }

  lemma {:induction false} PowAdds(a: nat, b: nat)
    ensures Pow2(a + b) == Pow2(a) * Pow2(b)
  {
    if a > 0 {
      PowAdds(a - 1, b);
    }
  }

  lemma {:induction false} ShlIsProduct(a: nat, k: nat)
    ensures Shl(a, k) == a * Pow2(k)
  {
    if k > 0 {
      ShlIsProduct(a, k - 1);
      DoubledProduct(a, Pow2(k - 1));
    }
  }

  lemma DoubledProduct(a: nat, p: nat)
    ensures a * (2 * p) == 2 * (a * p)
  {
  }

  lemma {:induction false} ShrIsQuotient(a: nat, k: nat)
    ensures Shr(a, k) == a / Pow2(k)
  {
    if k > 0 {
      ShrIsQuotient(a, k - 1);
      HalfQuotient(a, Pow2(k - 1));
    }
  }

  lemma HalfQuotient(a: nat, n: nat)
    requires n > 0
    ensures a / n / 2 == a / (2 * n)
  {
    var q := a / n;
    assert a == q * n + a % n;
    assert q * n == (q / 2) * (2 * n) + (q % 2) * n;
    DivisionOf(a, 2 * n, q / 2, (q % 2) * n + a % n);
  }

  /** Or-ing a shifted word with one that fits below the shift adds them. */
  lemma {:induction false} OrAdds(a: nat, k: nat, b: nat)
    requires b < Pow2(k)
    ensures Or(Shl(a, k), b) == Shl(a, k) + b
  {
    if k > 0 {
      OrAdds(a, k - 1, b / 2);
    }
  }

  /** And-ing with k low ones is the remainder modulo 2^k. */
  lemma {:induction false} MaskIsRemainder(a: nat, k: nat)
    ensures And(a, Pow2(k) - 1) == a % Pow2(k)
  {
    if k > 0 {
      MaskIsRemainder(a / 2, k - 1);
      HalfRemainder(a, Pow2(k - 1));
    }
  }

  lemma HalfRemainder(a: nat, n: nat)
    requires n > 0
    ensures a % (2 * n) == 2 * (a / 2 % n) + a % 2
  {
    var q, r := a / 2 / n, a / 2 % n;
    assert a / 2 == q * n + r;
    assert q * (2 * n) == 2 * (q * n);
    DivisionOf(a, 2 * n, q, 2 * r + a % 2);
  }

  lemma Powers()
    ensures Pow2(8) == 0x100 && Pow2(16) == 0x1_0000 && Pow2(24) == 0x100_0000
    ensures Pow2(40) == GENERATION_UNIT && Pow2(56) == VENUE_UNIT
  {
    assert Pow2(4) == 16;
    PowAdds(4, 4);
    PowAdds(8, 8);
    PowAdds(8, 16);
    PowAdds(16, 24);
    PowAdds(16, 40);
  }

  lemma ShlUnits(a: nat)
    ensures Shl(a, 56) == a * VENUE_UNIT && Shl(a, 40) == a * GENERATION_UNIT && Shl(a, 16) == a * SLOT_UNIT
  {
    Powers();
    hide Pow2, Shl;
    ShlIsProduct(a, 56);
    ShlIsProduct(a, 40);
    ShlIsProduct(a, 16);
  }

  lemma JoinGeneration(venue: nat, generation: nat)
    requires generation < GENERATIONS
    ensures Or(Shl(venue, 56), Shl(generation, 40)) == Shl(venue * GENERATIONS + generation, 40)
  {
    Powers();
    hide Or, Shl, Pow2;
    ShlUnits(venue);
    ShlUnits(generation);
    ShlUnits(venue * GENERATIONS + generation);
    OrAdds(venue, 56, Shl(generation, 40));
  }

  lemma JoinSlot(ahead: nat, slot: nat)
    requires slot < MAX_SLOTS
    ensures Or(Shl(ahead, 40), Shl(slot, 16)) == Shl(ahead * MAX_SLOTS + slot, 16)
  {
    Powers();
    hide Or, Shl, Pow2;
    ShlUnits(ahead);
    ShlUnits(slot);
    ShlUnits(ahead * MAX_SLOTS + slot);
    OrAdds(ahead, 40, Shl(slot, 16));
  }

  lemma JoinSequence(ahead: nat, sequence: nat)
    requires sequence < SEQUENCES
    ensures Or(Shl(ahead, 16), sequence) == ahead * SLOT_UNIT + sequence
  {
    Powers();
    hide Or, Shl, Pow2;
    ShlUnits(ahead);
    OrAdds(ahead, 16, sequence);
  }

  lemma PackedUnits(venue: nat, generation: nat, slot: nat, sequence: nat)
    requires slot < MAX_SLOTS
    ensures ((venue * GENERATIONS + generation) * MAX_SLOTS + slot) * SLOT_UNIT + sequence ==
      Encode(venue, generation, slot, sequence)
  {
  }

  /** Encode is the word that shifting the fields into place, masking the slot and or-ing them makes. */
  lemma EncodeIsShifts(venue: nat, generation: nat, slot: nat, sequence: nat)
    requires venue < VENUES && generation < GENERATIONS && sequence < SEQUENCES
    ensures Encode(venue, generation, slot, sequence)
         == Or(Or(Or(Shl(venue, 56), Shl(generation, 40)), Shl(And(slot, 0xFF_FFFF), 16)), sequence)
  {
    var s := And(slot, 0xFF_FFFF);
    hide Or, Shl, And, Encode, Pow2;
    MaskedSlot(slot);
    EncodeMasks(venue, generation, slot, sequence, s);
    JoinGeneration(venue, generation);
    JoinSlot(venue * GENERATIONS + generation, s);
    JoinSequence((venue * GENERATIONS + generation) * MAX_SLOTS + s, sequence);
    PackedUnits(venue, generation, s, sequence);
  }

  lemma MaskedSlot(slot: nat)
    ensures And(slot, 0xFF_FFFF) == slot % MAX_SLOTS < MAX_SLOTS
  {
    Powers();
    hide And, Pow2;
    MaskIsRemainder(slot, 24);
  }

  lemma EncodeMasks(venue: nat, generation: nat, slot: nat, sequence: nat, masked: nat)
    requires masked == slot % MAX_SLOTS
    ensures Encode(venue, generation, masked, sequence) == Encode(venue, generation, slot, sequence)
  {
  }

  /** Decode reads the fields by shifting right and masking. */
  lemma DecodeIsShifts(raw: nat)
    ensures Decode(raw) == OrderId(And(Shr(raw, 56), 0xFF), And(Shr(raw, 40), 0xFFFF), And(Shr(raw, 16), 0xFF_FFFF),
      And(raw, 0xFFFF))
  {
    Powers();
    ShrIsQuotient(raw, 56);
    ShrIsQuotient(raw, 40);
    ShrIsQuotient(raw, 16);
    MaskIsRemainder(Shr(raw, 56), 8);
    MaskIsRemainder(Shr(raw, 40), 16);
    MaskIsRemainder(Shr(raw, 16), 24);
    MaskIsRemainder(raw, 16);
  }
}
