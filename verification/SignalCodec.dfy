/** The binary form of signal messages: fixed-width little-endian fields, then a counted list. */
module SignalCodec {
  import opened Orders

  type byte = x: int | 0 <= x < 256

  const WORD16: nat := 0x1_0000
  const WORD32: nat := 0x1_0000_0000
  const WORD64: nat := 0x1_0000_0000_0000_0000

  datatype Target = Target(instrument: nat, qty: int)

  datatype Message = Message(version: nat, sequence: nat, generatedAt: int, strategy: nat, targets: seq<Target>)

  // ---- machine words ----

  function Capacity(width: nat): nat {
    if width == 0 then 1 else 256 * Capacity(width - 1)
  }

  lemma Capacities()
    ensures Capacity(2) == WORD16 && Capacity(4) == WORD32 && Capacity(8) == WORD64
  {
    assert Capacity(1) == 256;
    assert Capacity(3) == 256 * Capacity(2);
    assert Capacity(5) == 256 * Capacity(4);
    assert Capacity(6) == 256 * Capacity(5);
    assert Capacity(7) == 256 * Capacity(6);
  }

  /** The `width` bytes of a word, least significant first; higher bits are dropped. */
  function Put(width: nat, word: nat): (b: seq<byte>)
    ensures |b| == width
  {
    if width == 0 then [] else [word % 256] + Put(width - 1, word / 256)
  }

  function Get(b: seq<byte>): nat {
    if |b| == 0 then 0 else b[0] + 256 * Get(b[1..])
  }

  lemma {:induction false} GetBelow(b: seq<byte>)
    ensures Get(b) < Capacity(|b|)
  {
    if |b| > 0 {
      GetBelow(b[1..]);
    }
  }

  lemma {:induction false} GetPut(width: nat, word: nat)
    requires word < Capacity(width)
    ensures Get(Put(width, word)) == word
  {
    if width > 0 {
      GetPut(width - 1, word / 256);
      assert Put(width, word)[1..] == Put(width - 1, word / 256);
    }
  }

  lemma {:induction false} PutGet(b: seq<byte>)
    ensures Put(|b|, Get(b)) == b
  {
    if |b| > 0 {
      PutGet(b[1..]);
      assert Get(b) % 256 == b[0] && Get(b) / 256 == Get(b[1..]);
      assert b == [b[0]] + b[1..];
    }
  }

  /** Two's complement of a signed 64-bit value. */
  function ToWord(x: int): nat {
    x % WORD64
  }

  function FromWord(w: nat): int {
    if w < WORD64 / 2 then w else w - WORD64
  }

  predicate Fits64(x: int) {
    -(WORD64 / 2) <= x < WORD64 / 2
  }

  lemma WordRoundTrip(x: int, w: nat)
    ensures Fits64(x) ==> ToWord(x) < WORD64 && FromWord(ToWord(x)) == x
    ensures w < WORD64 ==> Fits64(FromWord(w)) && ToWord(FromWord(w)) == w
  {
  }

  // ---- messages ----

  predicate TargetFits(t: Target) {
    t.instrument < WORD16 && Fits64(t.qty)
  }

  predicate AllFit(ts: seq<Target>) {
    forall i :: 0 <= i < |ts| ==> TargetFits(ts[i])
  }

  /** The values the fields of the C++ structs can hold. */
  predicate Fits(m: Message) {
    && m.version < WORD32 && m.sequence < WORD64 && Fits64(m.generatedAt) && m.strategy < WORD16
    && AllFit(m.targets)
  }

  function PutTarget(t: Target): (b: seq<byte>)
    ensures |b| == 10
  {
    Put(2, t.instrument) + Put(8, ToWord(t.qty))
  }

  function PutTargets(ts: seq<Target>): (b: seq<byte>)
    ensures |b| == 10 * |ts|
  {
    if |ts| == 0 then [] else PutTargets(ts[..|ts| - 1]) + PutTarget(ts[|ts| - 1])
  }

  /** Everything before the targets; `count` is their number modulo 2^32. */
  function PutHeader(m: Message, count: nat): (b: seq<byte>)
    ensures |b| == 26
  {
    Put(4, m.version) + Put(8, m.sequence) + Put(8, ToWord(m.generatedAt)) + Put(2, m.strategy) + Put(4, count)
  }

  /** The number of targets as a 32-bit word. */
  function CountOf(m: Message): (n: nat)
    ensures n < WORD32 && (n == |m.targets| <==> |m.targets| < WORD32)
  {
    |m.targets| % WORD32
  }

  function Serialize(m: Message): seq<byte> {
    PutHeader(m, CountOf(m)) + PutTargets(m.targets)
  }

  function GetTarget(b: seq<byte>): Target
    requires |b| == 10
  {
    Target(Get(b[..2]), FromWord(Get(b[2..])))
  }

  function GetTargets(b: seq<byte>, n: nat): (ts: seq<Target>)
    requires |b| == 10 * n
    ensures |ts| == n
  {
    if n == 0 then [] else GetTargets(b[..10 * (n - 1)], n - 1) + [GetTarget(b[10 * (n - 1)..])]
  }

  function CountIn(b: seq<byte>): nat
    requires |b| >= 26
  {
    Get(b[22..26])
  }

  /** Fails on a truncated header, a truncated list, or anything behind the list. */
  function Deserialize(b: seq<byte>): Option<Message> {
    if |b| < 26 || |b| != 26 + 10 * CountIn(b) then None
    else Some(Message(Get(b[..4]), Get(b[4..12]), FromWord(Get(b[12..20])), Get(b[20..22]),
                      GetTargets(b[26..], CountIn(b))))
  }

  // ---- round trips ----

  lemma TargetRoundTrip(t: Target)
    requires TargetFits(t)
    ensures GetTarget(PutTarget(t)) == t
  {
    Capacities();
    WordRoundTrip(t.qty, 0);
    GetPut(2, t.instrument);
    GetPut(8, ToWord(t.qty));
    assert PutTarget(t)[..2] == Put(2, t.instrument) && PutTarget(t)[2..] == Put(8, ToWord(t.qty));
  }

  lemma TargetBack(b: seq<byte>)
    requires |b| == 10
    ensures TargetFits(GetTarget(b)) && PutTarget(GetTarget(b)) == b
  {
    Capacities();
    GetBelow(b[..2]);
    GetBelow(b[2..]);
    WordRoundTrip(0, Get(b[2..]));
    PutGet(b[..2]);
    PutGet(b[2..]);
    assert b == b[..2] + b[2..];
  }

  lemma {:induction false} TargetsRoundTrip(ts: seq<Target>)
    requires AllFit(ts)
    ensures GetTargets(PutTargets(ts), |ts|) == ts
  {
    if |ts| > 0 {
      var n := |ts| - 1;
      TargetsRoundTrip(ts[..n]);
      TargetRoundTrip(ts[n]);
      var b := PutTargets(ts);
      assert b[..10 * n] == PutTargets(ts[..n]) && b[10 * n..] == PutTarget(ts[n]);
      assert ts == ts[..n] + [ts[n]];
    }
  }

  lemma NextTarget(b: seq<byte>, i: nat)
    requires |b| == 10 * (i + 1)
    ensures GetTargets(b, i + 1) == GetTargets(b[..10 * i], i) + [GetTarget(b[10 * i..])]
  {
  }

  lemma PutNext(ts: seq<Target>, t: Target)
    ensures PutTargets(ts + [t]) == PutTargets(ts) + PutTarget(t)
    ensures AllFit(ts) && TargetFits(t) ==> AllFit(ts + [t])
  {
    assert (ts + [t])[..|ts|] == ts;
  }

  lemma {:induction false} TargetsBack(b: seq<byte>, n: nat)
    requires |b| == 10 * n
    ensures PutTargets(GetTargets(b, n)) == b
    ensures AllFit(GetTargets(b, n))
  {
    hide *;
    if n == 0 {
      NoTargets(b);
    } else {
      var front, last := b[..10 * (n - 1)], b[10 * (n - 1)..];
      NextTarget(b, n - 1);
      TargetsBack(front, n - 1);
      TargetBack(last);
      PutNext(GetTargets(front, n - 1), GetTarget(last));
      Halves(b, front, last, 10 * (n - 1));
    }
  }

  lemma NoTargets(b: seq<byte>)
    requires |b| == 0
    ensures PutTargets(GetTargets(b, 0)) == b && AllFit(GetTargets(b, 0))
  {
  }

  lemma Halves(b: seq<byte>, front: seq<byte>, last: seq<byte>, k: nat)
    requires k <= |b| && front == b[..k] && last == b[k..]
    ensures front + last == b
  {
  }

  lemma HeaderFields(m: Message, count: nat, rest: seq<byte>)
    requires count < WORD32 && m.version < WORD32 && m.sequence < WORD64 && Fits64(m.generatedAt) && m.strategy < WORD16
    ensures var b := PutHeader(m, count) + rest;
      && Get(b[..4]) == m.version && Get(b[4..12]) == m.sequence && FromWord(Get(b[12..20])) == m.generatedAt
      && Get(b[20..22]) == m.strategy && Get(b[22..26]) == count && b[26..] == rest
  {
    Capacities();
    WordRoundTrip(m.generatedAt, 0);
    GetPut(4, m.version);
    GetPut(8, m.sequence);
    GetPut(8, ToWord(m.generatedAt));
    GetPut(2, m.strategy);
    GetPut(4, count);
    hide *;
    HeaderIs(m, count);
    Fields(Put(4, m.version), Put(8, m.sequence), Put(8, ToWord(m.generatedAt)), Put(2, m.strategy), Put(4, count),
      rest);
  }

  lemma HeaderIs(m: Message, count: nat)
    ensures PutHeader(m, count) ==
      Put(4, m.version) + Put(8, m.sequence) + Put(8, ToWord(m.generatedAt)) + Put(2, m.strategy) + Put(4, count)
  {
  }

  lemma Fields(a: seq<byte>, b: seq<byte>, c: seq<byte>, d: seq<byte>, e: seq<byte>, rest: seq<byte>)
    requires |a| == 4 && |b| == 8 && |c| == 8 && |d| == 2 && |e| == 4
    ensures var all := a + b + c + d + e + rest;
      all[..4] == a && all[4..12] == b && all[12..20] == c && all[20..22] == d && all[22..26] == e && all[26..] == rest
  {
  }

  lemma SerializeIs(m: Message)
    ensures Serialize(m) == PutHeader(m, CountOf(m)) + PutTargets(m.targets)
    ensures |Serialize(m)| == 26 + 10 * |m.targets|
  {
  }

  lemma DeserializeIs(b: seq<byte>)
    requires |b| >= 26
    ensures |b| != 26 + 10 * CountIn(b) ==> Deserialize(b) == None
    ensures |b| == 26 + 10 * CountIn(b) ==>
      Deserialize(b) == Some(Message(Get(b[..4]), Get(b[4..12]), FromWord(Get(b[12..20])), Get(b[20..22]),
                                     GetTargets(b[26..], CountIn(b))))
    ensures CountIn(b) == Get(b[22..26])
  {
  }

  lemma FieldsFit(m: Message)
    requires Fits(m)
    ensures m.version < WORD32 && m.sequence < WORD64 && Fits64(m.generatedAt) && m.strategy < WORD16
    ensures AllFit(m.targets)
  {
  }

  /** A message comes back from its bytes exactly when its targets are fewer than 2^32; a longer list
      is written with its count cut to 32 bits, and its bytes are refused. */
  lemma RoundTripExactly(m: Message)
    requires Fits(m)
    ensures Deserialize(Serialize(m)) == Some(m) <==> |m.targets| < WORD32
    ensures |m.targets| >= WORD32 ==> Deserialize(Serialize(m)) == None
  {
    hide *;
    var count := CountOf(m);
    FieldsFit(m);
    SerializeIs(m);
    DeserializeIs(Serialize(m));
    HeaderFields(m, count, PutTargets(m.targets));
    TargetsRoundTrip(m.targets);
  }

  lemma HeaderBack(b: seq<byte>, m: Message)
    requires |b| >= 26 && m.version == Get(b[..4]) && m.sequence == Get(b[4..12])
    requires m.generatedAt == FromWord(Get(b[12..20])) && m.strategy == Get(b[20..22])
    ensures PutHeader(m, CountIn(b)) == b[..26] && CountIn(b) < WORD32
    ensures m.version < WORD32 && m.sequence < WORD64 && Fits64(m.generatedAt) && m.strategy < WORD16
  {
    Capacities();
    GetBelow(b[..4]);
    GetBelow(b[4..12]);
    GetBelow(b[12..20]);
    GetBelow(b[20..22]);
    GetBelow(b[22..26]);
    WordRoundTrip(0, Get(b[12..20]));
    PutGet(b[..4]);
    PutGet(b[4..12]);
    PutGet(b[12..20]);
    PutGet(b[20..22]);
    PutGet(b[22..26]);
    hide Put, Get, Capacity, ToWord, FromWord;
    assert b[..26] == b[..4] + b[4..12] + b[12..20] + b[20..22] + b[22..26];
  }

  /** Every accepted buffer is the encoding of the message read from it. */
  lemma AcceptedIsEncoding(b: seq<byte>)
    requires Deserialize(b).Some?
    ensures var m := Deserialize(b).value;
      Fits(m) && |m.targets| < WORD32 && Serialize(m) == b
  {
    hide *;
    var m := Deserialize(b).value;
    AcceptedLength(b);
    DeserializeIs(b);
    HeaderBack(b, m);
    TargetsBack(b[26..], CountIn(b));
    SerializeIs(m);
    WholeFits(m);
    assert b == b[..26] + b[26..];
  }

  lemma AcceptedLength(b: seq<byte>)
    requires Deserialize(b).Some?
    ensures |b| >= 26 && |b| == 26 + 10 * CountIn(b)
  {
  }

  lemma WholeFits(m: Message)
    requires m.version < WORD32 && m.sequence < WORD64 && Fits64(m.generatedAt) && m.strategy < WORD16
    requires AllFit(m.targets)
    ensures Fits(m)
  {
  }

  /** No accepted buffer is a strict prefix of another: cutting bytes off an encoding, or adding any
      behind it, makes it unreadable. */
  lemma PrefixesRefused(b: seq<byte>, longer: seq<byte>)
    requires b < longer
    ensures Deserialize(b).None? || Deserialize(longer).None?
  {
    if |b| >= 26 {
      assert longer[22..26] == b[22..26];
    }
  }

  // ---- reading and writing a buffer ----

  method AppendWord(b: seq<byte>, width: nat, word: nat) returns (r: seq<byte>)
    ensures r == b + Put(width, word)
  {
    r := b;
    var i, rest := 0, word;
    while i < width
      invariant 0 <= i <= width && r + Put(width - i, rest) == b + Put(width, word)
    {
      assert r + Put(width - i, rest) == r + [rest % 256] + Put(width - i - 1, rest / 256);
      r, rest, i := r + [rest % 256], rest / 256, i + 1;
    }
    assert r + Put(0, rest) == r;
  }

  method SerializeSignal(m: Message) returns (b: seq<byte>)
    ensures b == Serialize(m)
  {
    hide Put;
    b := AppendWord([], 4, m.version);
    b := AppendWord(b, 8, m.sequence);
    b := AppendWord(b, 8, ToWord(m.generatedAt));
    b := AppendWord(b, 2, m.strategy);
    b := AppendWord(b, 4, CountOf(m));
    ghost var header := PutHeader(m, CountOf(m));
    assert b == header;
    var i := 0;
    while i < |m.targets|
      invariant 0 <= i <= |m.targets| && b == header + PutTargets(m.targets[..i])
    {
      assert m.targets[..i + 1][..i] == m.targets[..i];
      b := AppendWord(b, 2, m.targets[i].instrument);
      b := AppendWord(b, 8, ToWord(m.targets[i].qty));
      assert b == header + (PutTargets(m.targets[..i]) + PutTarget(m.targets[i]));
      i := i + 1;
    }
    assert m.targets[..i] == m.targets;
  }

  /** Read `width` bytes at `off`; fails if the buffer ends before. */
  method ReadWord(b: seq<byte>, off: nat, width: nat) returns (word: Option<nat>)
    requires off <= |b|
    ensures word == if off + width <= |b| then Some(Get(b[off..off + width])) else None
  {
    if off + width > |b| { return None; }
    var w: nat := 0;
    var i := width;
    while i > 0
      invariant 0 <= i <= width && w == Get(b[off + i..off + width])
    {
      i := i - 1;
      assert b[off + i..off + width][1..] == b[off + i + 1..off + width];
      w := b[off + i] + 256 * w;
    }
    return Some(w);
  }

  method ReadTarget(b: seq<byte>, off: nat) returns (t: Option<Target>)
    requires off <= |b|
    ensures t == if off + 10 <= |b| then Some(GetTarget(b[off..off + 10])) else None
  {
    var inst := ReadWord(b, off, 2);
    if inst.None? { return None; }
    var qty := ReadWord(b, off + 2, 8);
    if qty.None? { return None; }
    assert b[off..off + 10][..2] == b[off..off + 2] && b[off..off + 10][2..] == b[off + 2..off + 10];
    return Some(Target(inst.value, FromWord(qty.value)));
  }

  /** Read field by field; a truncated buffer fails at the first field that is not whole, trailing
      bytes at the end. */
  method DeserializeSignal(b: seq<byte>) returns (m: Option<Message>)
    ensures m == Deserialize(b)
  {
    hide Get;
    var version := ReadWord(b, 0, 4);
    if version.None? { return None; }
    var sequence := ReadWord(b, 4, 8);
    if sequence.None? { return None; }
    var generated := ReadWord(b, 12, 8);
    if generated.None? { return None; }
    var strategy := ReadWord(b, 20, 2);
    if strategy.None? { return None; }
    var count := ReadWord(b, 22, 4);
    if count.None? { return None; }
    assert b[0..4] == b[..4];
    var n := count.value;
    var off, i, targets := 26, 0, [];
    while i < n
      invariant 0 <= i <= n && off == 26 + 10 * i <= |b|
      invariant targets == GetTargets(b[26..off], i)
    {
      var t := ReadTarget(b, off);
      if t.None? { return None; }
      NextTarget(b[26..off + 10], i);
      assert b[26..off + 10][..10 * i] == b[26..off] && b[26..off + 10][10 * i..] == b[off..off + 10];
      targets, off, i := targets + [t.value], off + 10, i + 1;
    }
    if off != |b| { return None; }
    assert b[26..off] == b[26..];
    return Some(Message(version.value, sequence.value, FromWord(generated.value), strategy.value, targets));
  }
}
