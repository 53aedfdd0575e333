/** CRC16-MODBUS (polynomial 0xA001 reflected, initial value 0xFFFF): MODBUS over Serial
    Line V1.02, section 6.2.2. The byte-wise loop of the codec is shown to be the bit-serial
    shift register, linear over GF(2), and to detect every burst of at most 16 bits. */
module Crc {
  type Byte = bv8

  const INIT: bv16 := 0xFFFF
  const POLY: bv16 := 0xA001

  /** Field addition. Proofs about the register hide its bits and use the laws below. */
  function Xor(a: bv16, b: bv16): bv16 { a ^ b }

  function Half(c: bv16): bv16 { c >> 1 }

  predicate Odd(c: bv16) { c & 1 == 1 }

  /** One step of the inner loop: shift right, and fold in the polynomial if a 1 fell out. */
  function Shift(c: bv16): bv16 {
    if Odd(c) then Xor(Half(c), POLY) else Half(c)
  }

  function Shift8(c: bv16): bv16 {
    Shift(Shift(Shift(Shift(Shift(Shift(Shift(Shift(c))))))))
  }

  function Absorb(c: bv16, b: Byte): bv16 {
    Shift8(Xor(c, b as bv16))
  }

  /** The register after the bytes of s, starting from c. */
  function CrcFrom(c: bv16, s: seq<Byte>): bv16
    decreases s
  {
    if s == [] then c else CrcFrom(Absorb(c, s[0]), s[1..])
  }

  function Low(c: bv16): Byte { (c & 0xFF) as bv8 }

  function High(c: bv16): Byte { ((c >> 8) & 0xFF) as bv8 }

  function Join(lo: Byte, hi: Byte): bv16 { (lo as bv16) | ((hi as bv16) << 8) }

  function Shifts(c: bv16, n: nat): bv16 {
    if n == 0 then c else Shift(Shifts(c, n - 1))
  }

  lemma ShiftsStep(c: bv16, n: nat)
    ensures Shifts(c, 0) == c && Shifts(c, n + 1) == Shift(Shifts(c, n))
  {}

  lemma {:induction false} ShiftsIsShift8(c: bv16)
    ensures Shifts(c, 8) == Shift8(c)
  {
    hide Shift, Shifts;
    ShiftsStep(c, 0); ShiftsStep(c, 1); ShiftsStep(c, 2); ShiftsStep(c, 3);
    ShiftsStep(c, 4); ShiftsStep(c, 5); ShiftsStep(c, 6); ShiftsStep(c, 7);
  }

  /** The two nested loops of the codec, on a register that is updated in place. */
  method Crc16Modbus(data: seq<Byte>) returns (crc: bv16)
    ensures crc == CrcFrom(INIT, data)
  {
    hide Shift8, Xor;
    crc := 0xFFFF;
    for i := 0 to |data|
      invariant CrcFrom(crc, data[i..]) == CrcFrom(INIT, data)
    {
      ghost var x := Xor(crc, data[i] as bv16);
      assert data[i..][1..] == data[i + 1..];
      crc := Xor(crc, data[i] as bv16);
      for bit := 0 to 8
        invariant crc == Shifts(x, bit)
      {
        hide Shifts;
        ShiftsStep(x, bit);
        if crc & 1 == 1 {
          crc := Xor(crc >> 1, 0xA001);
        } else {
          crc := crc >> 1;
        }
      }
      ShiftsIsShift8(x);
    }
  }

  /** The published check value: the checksum of the ASCII digits 1 to 9 is 0x4B37. */
  lemma CheckValue()
    ensures CrcFrom(INIT, [0x31, 0x32, 0x33, 0x34, 0x35, 0x36, 0x37, 0x38, 0x39]) == 0x4B37
  {}

  // ---------------------------------------------------------------- the bit-serial register

  /** One clock of a serial register that is fed a single bit. */
  function Clock(c: bv16, bit: bool): bv16 {
    Shift(if bit then Xor(c, 1) else c)
  }

  function Serial(c: bv16, bits: seq<bool>): bv16
    decreases bits
  {
    if bits == [] then c else Serial(Clock(c, bits[0]), bits[1..])
  }

  /** The bits of one byte in the order they go on the line: least significant first. */
  function Bits(b: Byte): (r: seq<bool>)
    ensures |r| == 8
  {
    [b & 0x01 != 0, b & 0x02 != 0, b & 0x04 != 0, b & 0x08 != 0,
     b & 0x10 != 0, b & 0x20 != 0, b & 0x40 != 0, b & 0x80 != 0]
  }

  function BitStream(s: seq<Byte>): (r: seq<bool>)
    ensures |r| == 8 * |s|
  {
    if s == [] then [] else Bits(s[0]) + BitStream(s[1..])
  }

  lemma XorSwap(x: bv16, y: bv16, p: bv16)
    ensures Xor(Xor(x, p), y) == Xor(Xor(x, y), p)
  {}

  lemma XorAssoc(x: bv16, y: bv16, p: bv16)
    ensures Xor(x, Xor(y, p)) == Xor(Xor(x, y), p)
  {}

  lemma XorCancel(x: bv16, p: bv16)
    ensures Xor(Xor(x, p), p) == x
  {}

  lemma XorZero(x: bv16, y: bv16)
    ensures Xor(x, 0) == x && Xor(0, x) == x && (Xor(x, y) == 0 <==> x == y)
  {}

  lemma HalfXor(a: bv16, b: bv16)
    ensures Half(Xor(a, b)) == Xor(Half(a), Half(b))
  {}

  lemma OddXor(a: bv16, b: bv16)
    ensures Odd(Xor(a, b)) <==> Odd(a) != Odd(b)
  {}

  lemma ShiftZero(c: bv16)
    ensures Shift(c) == 0 <==> c == 0
  {}

  /** The register is linear: the polynomial is folded in twice or not at all. */
  lemma {:induction false} ShiftLinear(a: bv16, b: bv16)
    ensures Shift(Xor(a, b)) == Xor(Shift(a), Shift(b))
  {
    hide Xor, Half, Odd;
    HalfXor(a, b);
    OddXor(a, b);
    XorSwap(Half(a), Half(b), POLY);
    XorAssoc(Half(a), Half(b), POLY);
    XorAssoc(Xor(Half(a), POLY), Half(b), POLY);
    XorCancel(Xor(Half(a), Half(b)), POLY);
  }

  lemma ShiftOne()
    ensures Shift(1) == POLY
  {}

  /** A word x waiting ahead of the register can be fed one bit at a time. */
  lemma {:induction false} FeedOne(c: bv16, x: bv16)
    ensures Shift(Xor(c, x)) == Xor(Clock(c, Odd(x)), Half(x))
  {
    hide Xor, Half, Odd;
    ShiftOne();
    ShiftLinear(c, x);
    ShiftLinear(c, 1);
    XorSwap(Shift(c), Half(x), POLY);
    XorAssoc(Shift(c), Half(x), POLY);
  }

  lemma WordBits(b: Byte)
    ensures
      var x1 := b as bv16; var x2 := Half(x1); var x3 := Half(x2); var x4 := Half(x3);
      var x5 := Half(x4); var x6 := Half(x5); var x7 := Half(x6); var x8 := Half(x7);
      && Bits(b) == [Odd(x1), Odd(x2), Odd(x3), Odd(x4), Odd(x5), Odd(x6), Odd(x7), Odd(x8)]
      && Half(x8) == 0
  {}

  lemma {:induction false} Peel(c: bv16, w: seq<bool>)
    requires |w| >= 4
    ensures Serial(c, w) == Serial(Clock(Clock(Clock(Clock(c, w[0]), w[1]), w[2]), w[3]), w[4..])
  {
    hide Clock;
    assert w[1..][1..] == w[2..];
    assert w[2..][1..] == w[3..];
    assert w[3..][1..] == w[4..];
    var c2 := Clock(Clock(c, w[0]), w[1]);
    assert Serial(c, w) == Serial(c2, w[2..]);
    assert Serial(c2, w[2..]) == Serial(Clock(c2, w[2]), w[3..]);
  }

  lemma {:induction false} ByteIsSerial(c: bv16, b: Byte)
    ensures Absorb(c, b) == Serial(c, Bits(b))
  {
    hide Shift, Xor, Clock, Bits, Half, Odd;
    var w := Bits(b);
    WordBits(b);
    var x1 := b as bv16;
    var c2, x2 := Clock(c, w[0]), Half(x1);   FeedOne(c, x1);
    var c3, x3 := Clock(c2, w[1]), Half(x2);  FeedOne(c2, x2);
    var c4, x4 := Clock(c3, w[2]), Half(x3);  FeedOne(c3, x3);
    var c5, x5 := Clock(c4, w[3]), Half(x4);  FeedOne(c4, x4);
    var c6, x6 := Clock(c5, w[4]), Half(x5);  FeedOne(c5, x5);
    var c7, x7 := Clock(c6, w[5]), Half(x6);  FeedOne(c6, x6);
    var c8, x8 := Clock(c7, w[6]), Half(x7);  FeedOne(c7, x7);
    FeedOne(c8, x8);
    XorZero(Clock(c8, w[7]), 0);
    Peel(c, w);
    Peel(c5, w[4..]);
  }

  lemma {:induction false} SerialAppend(c: bv16, a: seq<bool>, b: seq<bool>)
    ensures Serial(c, a + b) == Serial(Serial(c, a), b)
    decreases a
  {
    hide Clock;
    if a == [] {
      assert a + b == b;
    } else {
      assert (a + b)[1..] == a[1..] + b;
      SerialAppend(Clock(c, a[0]), a[1..], b);
    }
  }

  /** The byte-wise loop computes the bit-serial register over the line order of the bits. */
  lemma {:induction false} CrcIsSerial(c: bv16, s: seq<Byte>)
    ensures CrcFrom(c, s) == Serial(c, BitStream(s))
    decreases s
  {
    hide Absorb, Clock, Bits;
    if s != [] {
      ByteIsSerial(c, s[0]);
      SerialAppend(c, Bits(s[0]), BitStream(s[1..]));
      CrcIsSerial(Absorb(c, s[0]), s[1..]);
    }
  }

  // ---------------------------------------------------------------- linearity and residue

  function XorBytes(a: seq<Byte>, e: seq<Byte>): (r: seq<Byte>)
    requires |a| == |e|
    ensures |r| == |a|
    ensures forall i :: 0 <= i < |a| ==> r[i] == a[i] ^ e[i]
  {
    if a == [] then [] else [a[0] ^ e[0]] + XorBytes(a[1..], e[1..])
  }

  lemma {:induction false} Shift8Linear(a: bv16, b: bv16)
    ensures Shift8(Xor(a, b)) == Xor(Shift8(a), Shift8(b))
  {
    hide Xor, Shift;
    var a1, b1 := Shift(a), Shift(b);    ShiftLinear(a, b);
    var a2, b2 := Shift(a1), Shift(b1);  ShiftLinear(a1, b1);
    var a3, b3 := Shift(a2), Shift(b2);  ShiftLinear(a2, b2);
    var a4, b4 := Shift(a3), Shift(b3);  ShiftLinear(a3, b3);
    var a5, b5 := Shift(a4), Shift(b4);  ShiftLinear(a4, b4);
    var a6, b6 := Shift(a5), Shift(b5);  ShiftLinear(a5, b5);
    var a7, b7 := Shift(a6), Shift(b6);  ShiftLinear(a6, b6);
    ShiftLinear(a7, b7);
  }

  lemma Regroup(c: bv16, d: bv16, a: Byte, e: Byte)
    ensures Xor(Xor(c, d), (a ^ e) as bv16) == Xor(Xor(c, a as bv16), Xor(d, e as bv16))
  {}

  lemma {:induction false} AbsorbLinear(c: bv16, d: bv16, a: Byte, e: Byte)
    ensures Absorb(Xor(c, d), a ^ e) == Xor(Absorb(c, a), Absorb(d, e))
  {
    hide Xor, Shift8;
    Regroup(c, d, a, e);
    Shift8Linear(Xor(c, a as bv16), Xor(d, e as bv16));
  }

  /** The register is linear over xor, in its start value and in the message together. */
  lemma {:induction false} CrcLinear(c: bv16, d: bv16, a: seq<Byte>, e: seq<Byte>)
    requires |a| == |e|
    ensures CrcFrom(Xor(c, d), XorBytes(a, e)) == Xor(CrcFrom(c, a), CrcFrom(d, e))
    decreases a
  {
    hide Absorb, Xor;
    if a != [] {
      AbsorbLinear(c, d, a[0], e[0]);
      assert XorBytes(a, e)[1..] == XorBytes(a[1..], e[1..]);
      CrcLinear(Absorb(c, a[0]), Absorb(d, e[0]), a[1..], e[1..]);
    }
  }

  lemma {:induction false} CrcAppend(c: bv16, a: seq<Byte>, b: seq<Byte>)
    ensures CrcFrom(c, a + b) == CrcFrom(CrcFrom(c, a), b)
    decreases a
  {
    hide Absorb;
    if a == [] {
      assert a + b == b;
    } else {
      assert (a + b)[1..] == a[1..] + b;
      CrcAppend(Absorb(c, a[0]), a[1..], b);
    }
  }

  /** Eight steps clear the high byte only if they had nothing to fold in. */
  lemma EightSteps(x: bv16)
    ensures Shift8(x) & 0xFF00 == 0 <==> x & 0xFF == 0
    ensures x & 0xFF == 0 ==> Shift8(x) == x >> 8
    ensures Shift8(x) == 0 <==> x == 0
  {}

  lemma ClearsLow(c: bv16, lo: Byte)
    ensures Xor(c, lo as bv16) & 0xFF == 0 <==> lo == Low(c)
  {}

  lemma KeepsHigh(c: bv16, lo: Byte)
    ensures Xor(c, lo as bv16) >> 8 == c >> 8
  {}

  lemma HighAlone(c: bv16, hi: Byte)
    ensures (hi as bv16) & 0xFF00 == 0
    ensures c >> 8 == hi as bv16 <==> hi == High(c)
  {}

  lemma {:induction false} AbsorbTwo(c: bv16, lo: Byte, hi: Byte)
    ensures Absorb(Absorb(c, lo), hi) == 0 <==> lo == Low(c) && hi == High(c)
  {
    hide Shift8, Xor, Low, High;
    EightSteps(Xor(c, lo as bv16));
    ClearsLow(c, lo);
    KeepsHigh(c, lo);
    HighAlone(c, hi);
    EightSteps(Xor(Absorb(c, lo), hi as bv16));
    XorZero(Absorb(c, lo), hi as bv16);
  }

  /** Residue law: appending two bytes drives the register to zero exactly when they are the
      checksum of what went before, low byte first. */
  lemma {:induction false} Residue(c: bv16, s: seq<Byte>, lo: Byte, hi: Byte)
    ensures CrcFrom(c, s + [lo, hi]) == 0 <==> lo == Low(CrcFrom(c, s)) && hi == High(CrcFrom(c, s))
  {
    hide Absorb, Low, High;
    var r := CrcFrom(c, s);
    CrcAppend(c, s, [lo, hi]);
    assert CrcFrom(r, [lo, hi]) == CrcFrom(Absorb(r, lo), [hi]);
    assert CrcFrom(Absorb(r, lo), [hi]) == Absorb(Absorb(r, lo), hi);
    AbsorbTwo(r, lo, hi);
  }

  lemma JoinOfParts(c: bv16)
    ensures Join(Low(c), High(c)) == c
  {}

  lemma PartsOfJoin(lo: Byte, hi: Byte)
    ensures Low(Join(lo, hi)) == lo && High(Join(lo, hi)) == hi
  {}

  // ---------------------------------------------------------------- burst detection

  /** Some bit is wrong, and all wrong bits lie within 16 consecutive bits on the line. */
  ghost predicate Burst(e: seq<Byte>) {
    exists n: nat :: BurstAt(BitStream(e), n)
  }

  ghost predicate BurstAt(bits: seq<bool>, n: nat) {
    && n < |bits|
    && (exists m :: 0 <= m < |bits| && bits[m])
    && forall m :: 0 <= m < |bits| && bits[m] ==> n <= m < n + 16
  }

  function Quiet(n: nat): (r: seq<bool>)
    ensures |r| == n && forall i :: 0 <= i < n ==> !r[i]
  {
    seq(n, _ => false)
  }

  lemma {:induction false} SerialQuiet(c: bv16, n: nat)
    ensures Serial(c, Quiet(n)) == 0 <==> c == 0
    decreases n
  {
    hide Shift;
    if n > 0 {
      assert Quiet(n)[1..] == Quiet(n - 1);
      ShiftZero(c);
      SerialQuiet(Clock(c, false), n - 1);
    }
  }

  function ByteOf(w: seq<bool>): Byte
    requires |w| == 8
  {
    (if w[0] then 0x01 else 0) | (if w[1] then 0x02 else 0) | (if w[2] then 0x04 else 0)
    | (if w[3] then 0x08 else 0) | (if w[4] then 0x10 else 0) | (if w[5] then 0x20 else 0)
    | (if w[6] then 0x40 else 0) | (if w[7] then 0x80 else 0)
  }

  lemma BitsOfByteOf(w: seq<bool>)
    requires |w| == 8
    ensures Bits(ByteOf(w)) == w
    ensures ByteOf(w) == 0 <==> forall i :: 0 <= i < 8 ==> !w[i]
  {}

  lemma {:induction false} SixteenBits(w: seq<bool>)
    requires |w| == 16
    ensures Serial(0, w) == 0 <==> forall i :: 0 <= i < 16 ==> !w[i]
  {
    hide Bits, ByteOf, Absorb, Clock;
    var lo, hi := ByteOf(w[..8]), ByteOf(w[8..]);
    assert w == w[..8] + w[8..];
    BitsOfByteOf(w[..8]);
    BitsOfByteOf(w[8..]);
    SerialAppend(0, w[..8], w[8..]);
    ByteIsSerial(0, lo);
    ByteIsSerial(Absorb(0, lo), hi);
    AbsorbTwo(0, lo, hi);
    assert forall i :: 8 <= i < 16 ==> w[i] == w[8..][i - 8];
  }

  lemma {:induction false} BurstMovesRegister(bits: seq<bool>, n: nat)
    requires BurstAt(bits, n)
    ensures Serial(0, bits) != 0
  {
    hide Clock;
    var padded := bits + Quiet(16);
    var w := padded[n..n + 16];
    assert padded == Quiet(n) + w + Quiet(|bits| - n);
    SerialAppend(0, bits, Quiet(16));
    SerialQuiet(Serial(0, bits), 16);
    SerialAppend(0, Quiet(n) + w, Quiet(|bits| - n));
    SerialAppend(0, Quiet(n), w);
    SerialQuiet(0, n);
    SerialQuiet(Serial(0, w), |bits| - n);
    SixteenBits(w);
    var m :| 0 <= m < |bits| && bits[m];
    assert w[m - n];
  }

  /** No burst of at most 16 bits is a codeword. */
  lemma {:induction false} BurstDetected(e: seq<Byte>)
    requires Burst(e)
    ensures CrcFrom(0, e) != 0
  {
    hide Absorb, Clock, Bits;
    var n: nat :| BurstAt(BitStream(e), n);
    CrcIsSerial(0, e);
    BurstMovesRegister(BitStream(e), n);
  }

  // ---------------------------------------------------------------- scattered errors

  /** The number of wrong bits. */
  function Ones(bits: seq<bool>): nat {
    if bits == [] then 0 else (if bits[0] then 1 else 0) + Ones(bits[1..])
  }

  /** Whether the register holds an odd number of ones. */
  predicate Parity(c: bv16)
    decreases c
  {
    c != 0 && Odd(c) != Parity(Half(c))
  }

  lemma ParityHalf(c: bv16)
    ensures Parity(c) <==> Odd(c) != Parity(Half(c))
    ensures !Parity(0)
  {
    assert Half(0) == 0 && !Odd(0);
  }

  lemma HalfIsLess(c: bv16)
    ensures if c == 0 then Half(c) == 0 else Half(c) < c
  {}

  lemma {:induction false} ParityXor(a: bv16, b: bv16)
    ensures Parity(Xor(a, b)) <==> Parity(a) != Parity(b)
    decreases a, b
  {
    hide Xor, Half, Odd, Parity;
    if a == 0 && b == 0 {
      XorZero(0, 0);
      ParityHalf(0);
    } else {
      HalfIsLess(a);
      HalfIsLess(b);
      ParityXor(Half(a), Half(b));
      HalfXor(a, b);
      OddXor(a, b);
      ParityHalf(a);
      ParityHalf(b);
      ParityHalf(Xor(a, b));
    }
  }

  /** 0xA001 has three ones. */
  lemma {:induction false} ParityUnits()
    ensures Parity(POLY) && Parity(1) && !Parity(0)
  {
    hide Parity;
    ParityHalf(0); ParityHalf(1); ParityHalf(2); ParityHalf(5); ParityHalf(0xA);
    ParityHalf(0x14); ParityHalf(0x28); ParityHalf(0x50); ParityHalf(0xA0); ParityHalf(0x140);
    ParityHalf(0x280); ParityHalf(0x500); ParityHalf(0xA00); ParityHalf(0x1400); ParityHalf(0x2800);
    ParityHalf(0x5000); ParityHalf(POLY);
  }

  /** The polynomial has an even number of terms: a clock only adds in the parity of its bit. */
  lemma {:induction false} ClockKeepsParity(c: bv16, bit: bool)
    ensures Parity(Clock(c, bit)) <==> Parity(c) != bit
  {
    hide Xor, Half, Odd, Parity;
    var x := if bit then Xor(c, 1) else c;
    ParityUnits();
    ParityXor(c, 1);
    ParityHalf(x);
    ParityXor(Half(x), POLY);
  }

  lemma {:induction false} SerialParity(c: bv16, bits: seq<bool>)
    ensures Parity(Serial(c, bits)) <==> Parity(c) != (Ones(bits) % 2 == 1)
    decreases bits
  {
    hide Clock, Parity;
    if bits != [] {
      ClockKeepsParity(c, bits[0]);
      SerialParity(Clock(c, bits[0]), bits[1..]);
    }
  }

  /** Fed with zeros from c, the register is not 1 at any of the first n clocks. */
  predicate Avoids(c: bv16, n: nat)
    decreases n
  {
    n == 0 || (c != 1 && Avoids(Shift(c), n - 1))
  }

  lemma AvoidsOne(c: bv16, n: nat)
    requires c != 1 && Avoids(Shift(c), n)
    ensures Avoids(c, n + 1)
  {}

  /** Not a single low bit. */
  predicate Mixed(c: bv16) {
    c != 0x01 && c != 0x02 && c != 0x04 && c != 0x08 && c != 0x10 && c != 0x20 && c != 0x40 && c != 0x80
  }

  lemma SevenClocks(c: bv16)
    requires Mixed(c)
    ensures
      var c1 := Shift(c); var c2 := Shift(c1); var c3 := Shift(c2); var c4 := Shift(c3);
      var c5 := Shift(c4); var c6 := Shift(c5); var c7 := Shift(c6);
      c1 != 1 && c2 != 1 && c3 != 1 && c4 != 1 && c5 != 1 && c6 != 1 && c7 != 1
  {}

  /** Seven clocks lead to 1 only from a single low bit. */
  lemma {:induction false} Row(c: bv16, next: bv16, n: nat)
    requires Mixed(c) && Shift8(c) == next && Avoids(next, n)
    ensures Avoids(c, n + 8)
  {
    hide Avoids;
    SevenClocks(c);
    hide Shift;
    var c1 := Shift(c); var c2 := Shift(c1); var c3 := Shift(c2); var c4 := Shift(c3);
    var c5 := Shift(c4); var c6 := Shift(c5); var c7 := Shift(c6);
    AvoidsOne(c7, n); AvoidsOne(c6, n + 1); AvoidsOne(c5, n + 2); AvoidsOne(c4, n + 3);
    AvoidsOne(c3, n + 4); AvoidsOne(c2, n + 5); AvoidsOne(c1, n + 6); AvoidsOne(c, n + 7);
  }

  lemma {:induction false} FarRows()
    ensures Avoids(0xC89F, 152)
  {
    assert Avoids(0x5604, 0);
    hide Avoids;
    Row(0xC4C9, 0x5604, 0); Row(0x480E, 0xC4C9, 8); Row(0xCEE1, 0x480E, 16);
    Row(0x6016, 0xCEE1, 24); Row(0xD681, 0x6016, 32); Row(0xC037, 0xD681, 40);
    Row(0xF601, 0xC037, 48); Row(0xC049, 0xF601, 56); Row(0x8801, 0xC049, 64);
    Row(0x00E0, 0x8801, 72); Row(0xE000, 0x00E0, 80); Row(0x417F, 0xE000, 88);
    Row(0x7FFC, 0x417F, 96); Row(0x7CAA, 0x7FFC, 104); Row(0xEAAF, 0x7CAA, 112);
    Row(0xEE67, 0xEAAF, 120); Row(0x6668, 0xEE67, 128); Row(0x6888, 0x6668, 136);
    Row(0xC89F, 0x6888, 144);
  }

  /** A single wrong bit does not come round to 1 within the 312 bits of the longest frame. */
  lemma {:induction false} NearRows()
    ensures Avoids(POLY, 312)
  {
    hide Avoids;
    FarRows();
    Row(0xDE1F, 0xC89F, 152); Row(0xDE29, 0xDE1F, 160); Row(0xE829, 0xDE29, 168);
    Row(0xE861, 0xE829, 176); Row(0xA061, 0xE861, 184); Row(0x6080, 0xA061, 192);
    Row(0x4081, 0x6080, 200); Row(0xC1FF, 0x4081, 208); Row(0x7E02, 0xC1FF, 216);
    Row(0xC2A9, 0x7E02, 224); Row(0xE807, 0xC2A9, 232); Row(0xC661, 0xE807, 240);
    Row(0x6008, 0xC661, 248); Row(0xC881, 0x6008, 256); Row(0xC01F, 0xC881, 264);
    Row(0xDE01, 0xC01F, 272); Row(0xC029, 0xDE01, 280); Row(0xE801, 0xC029, 288);
    Row(0xC061, 0xE801, 296); Row(0xA001, 0xC061, 304);
  }

  /** A second wrong bit does not cancel the first. */
  lemma {:induction false} SecondBit(c: bv16, bits: seq<bool>)
    requires c != 0 && Avoids(c, |bits|) && Ones(bits) <= 1
    ensures Serial(c, bits) != 0
    decreases bits
  {
    hide Shift, Xor;
    if bits != [] {
      if bits[0] {
        XorZero(c, 1);
        ShiftZero(Xor(c, 1));
        NoOnes(bits[1..]);
        SerialQuiet(Clock(c, true), |bits| - 1);
      } else {
        ShiftZero(c);
        SecondBit(Shift(c), bits[1..]);
      }
    }
  }

  lemma {:induction false} NoOnes(bits: seq<bool>)
    requires Ones(bits) == 0
    ensures bits == Quiet(|bits|)
  {
    if bits != [] {
      NoOnes(bits[1..]);
      assert bits == [bits[0]] + bits[1..];
    }
  }

  lemma {:induction false} AvoidsLess(c: bv16, n: nat, m: nat)
    requires Avoids(c, n) && m <= n
    ensures Avoids(c, m)
    decreases n
  {
    hide Shift;
    if m > 0 {
      AvoidsLess(Shift(c), n - 1, m - 1);
    }
  }

  lemma FirstClock()
    ensures Clock(0, true) == POLY && Clock(0, false) == 0
  {}

  lemma {:induction false} TwoBits(bits: seq<bool>)
    requires 1 <= Ones(bits) <= 2 && |bits| <= 312
    ensures Serial(0, bits) != 0
    decreases bits
  {
    hide Clock, Avoids;
    FirstClock();
    if bits[0] {
      NearRows();
      AvoidsLess(POLY, 312, |bits| - 1);
      SecondBit(POLY, bits[1..]);
    } else {
      TwoBits(bits[1..]);
    }
  }

  /** Any odd number of wrong bits is detected in a message of any length, and any two in one of
      at most 39 bytes, the longest frame. */
  lemma {:induction false} ScatterDetected(e: seq<Byte>)
    requires Ones(BitStream(e)) % 2 == 1 || (Ones(BitStream(e)) == 2 && |e| <= 39)
    ensures CrcFrom(0, e) != 0
  {
    hide Absorb, Clock, Parity, Bits;
    CrcIsSerial(0, e);
    if Ones(BitStream(e)) == 2 {
      TwoBits(BitStream(e));
    } else {
      SerialParity(0, BitStream(e));
      ParityUnits();
    }
  }
}
