/** The serial-line checksum of section 2.5.1.2 of MODBUS over Serial Line V1.02:
    a 16-bit register shifted right through the reflected polynomial 0xA001.
    The byte-wise loop is specified by a register function; the error-detection
    theorems are proved on the bit-serial form of that function. */
module Crc {

  datatype Verdict = Accepted | TooShort | Mismatch(actual: bv16, expected: bv16)

  const INITIAL: bv16 := 0xFFFF

  // ----- the register and its update --------------------------------------

  // Addition of bit vectors over the two-element field.
  function Plus(a: bv16, b: bv16): bv16 { a ^ b }

  function Half(r: bv16): bv16 { r >> 1 }

  predicate Odd(r: bv16) { r & 1 == 1 }

  function Shift(r: bv16): bv16 {
    if Odd(r) then Plus(Half(r), 0xA001) else Half(r)
  }

  function Shifts(r: bv16, n: nat): bv16
    decreases n
  {
    if n == 0 then r else Shifts(Shift(r), n - 1)
  }

  function Feed(r: bv16, b: bv8): bv16 {
    Shifts(Plus(r, b as bv16), 8)
  }

  function Register(r: bv16, data: seq<bv8>): bv16
    decreases data
  {
    if data == [] then r else Register(Feed(r, data[0]), data[1..])
  }

  function Low(r: bv16): bv8 { (r & 0xFF) as bv8 }

  function High(r: bv16): bv8 { ((r >> 8) & 0xFF) as bv8 }

  function Word(lo: bv8, hi: bv8): bv16 { (lo as bv16) | ((hi as bv16) << 8) }

  function AppendCrc(frame: seq<bv8>): seq<bv8> {
    var crc := Register(INITIAL, frame);
    frame + [Low(crc), High(crc)]
  }

  function Trailer(frame: seq<bv8>): bv16
    requires |frame| >= 2
  {
    Word(frame[|frame| - 2], frame[|frame| - 1])
  }

  lemma ShiftsOnce(r: bv16, n: nat)
    requires n > 0
    ensures r & 1 == 1 ==> Shifts(r, n) == Shifts((r >> 1) ^ 0xA001, n - 1)
    ensures r & 1 != 1 ==> Shifts(r, n) == Shifts(r >> 1, n - 1)
  {
  }

  method FeedByte(r: bv16, b: bv8) returns (crc: bv16)
    ensures crc == Feed(r, b)
  {
    crc := r ^ (b as bv16);
    for j := 0 to 8
      invariant Shifts(crc, 8 - j) == Feed(r, b)
    {
      ShiftsOnce(crc, 8 - j);
      if crc & 0x0001 == 1 {
        crc := (crc >> 1) ^ 0xA001;
      } else {
        crc := crc >> 1;
      }
    }
  }

  method Crc16Modbus(data: seq<bv8>) returns (crc: bv16)
    ensures crc == Register(INITIAL, data)
  {
    crc := INITIAL;
    for i := 0 to |data|
      invariant Register(crc, data[i..]) == Register(INITIAL, data)
    {
      assert data[i..][0] == data[i] && data[i..][1..] == data[i + 1..];
      crc := FeedByte(crc, data[i]);
    }
  }

  method CheckCrc(frame: seq<bv8>) returns (v: Verdict)
    ensures v.TooShort? <==> |frame| < 4
    ensures v.Accepted? <==> |frame| >= 4 && Register(INITIAL, frame) == 0
    ensures v.Mismatch? ==> v.actual != v.expected && v.actual == Trailer(frame)
                            && v.expected == Register(INITIAL, frame[..|frame| - 2])
  {
    if |frame| < 4 {
      return TooShort;
    }
    var expected := Crc16Modbus(frame[..|frame| - 2]);
    var actual := Word(frame[|frame| - 2], frame[|frame| - 1]);
    AcceptedIffResidueZero(frame);
    v := if actual != expected then Mismatch(actual, expected) else Accepted;
  }

  // ----- algebra of the update --------------------------------------------

  lemma PlusZero(a: bv16)
    ensures Plus(a, 0) == a && Plus(0, a) == a
  {
  }

  lemma PlusAssociates(a: bv16, b: bv16, c: bv16)
    ensures Plus(a, Plus(b, c)) == Plus(Plus(a, b), c)
  {
  }

  lemma PlusCommutes(a: bv16, b: bv16)
    ensures Plus(a, b) == Plus(b, a)
  {
  }

  lemma PlusExchange(a: bv16, b: bv16, c: bv16, d: bv16)
    ensures Plus(Plus(a, b), Plus(c, d)) == Plus(Plus(a, c), Plus(b, d))
  {
    hide Plus;
    PlusAssociates(a, b, Plus(c, d));
    PlusAssociates(b, c, d);
    PlusCommutes(b, c);
    PlusAssociates(c, b, d);
    PlusAssociates(a, c, Plus(b, d));
  }

  lemma PlusCancels(a: bv16, b: bv16)
    ensures Plus(a, b) == 0 <==> a == b
  {
  }

  lemma PlusLowBit(a: bv16, b: bv16)
    ensures Odd(Plus(a, b)) <==> Odd(a) != Odd(b)
    ensures Half(Plus(a, b)) == Plus(Half(a), Half(b))
  {
  }

  lemma ShiftZero()
    ensures Shift(0) == 0
  {
  }

  lemma ShiftPlus(a: bv16, b: bv16)
    ensures Shift(Plus(a, b)) == Plus(Shift(a), Shift(b))
  {
    hide Plus, Half, Odd;
    PlusLowBit(a, b);
    PlusExchange(Half(a), Half(b), 0xA001, 0xA001);
    PlusZero(Plus(Half(a), Half(b)));
    PlusExchange(Half(a), 0xA001, Half(b), 0);
    PlusExchange(Half(a), 0, Half(b), 0xA001);
    PlusZero(Half(a));
    PlusZero(Half(b));
    PlusZero(0xA001);
    PlusCancels(0xA001, 0xA001);
  }

  lemma ShiftInjective(a: bv16, b: bv16)
    requires Shift(a) == Shift(b)
    ensures a == b
  {
  }

  lemma {:induction false} ShiftsZero(n: nat)
    ensures Shifts(0, n) == 0
  {
    hide Shift;
    if n > 0 {
      ShiftZero();
      ShiftsZero(n - 1);
    }
  }

  lemma {:induction false} ShiftsPlus(a: bv16, b: bv16, n: nat)
    ensures Shifts(Plus(a, b), n) == Plus(Shifts(a, n), Shifts(b, n))
    decreases n
  {
    hide Plus, Shift;
    if n > 0 {
      ShiftPlus(a, b);
      ShiftsPlus(Shift(a), Shift(b), n - 1);
    }
  }

  lemma {:induction false} ShiftsInjective(a: bv16, b: bv16, n: nat)
    ensures Shifts(a, n) == Shifts(b, n) <==> a == b
    decreases n
  {
    hide Shift;
    if n > 0 {
      ShiftsInjective(Shift(a), Shift(b), n - 1);
      if Shift(a) == Shift(b) { ShiftInjective(a, b); }
    }
  }

  lemma {:induction false} RegisterConcat(r: bv16, a: seq<bv8>, b: seq<bv8>)
    ensures Register(r, a + b) == Register(Register(r, a), b)
    decreases a
  {
    hide Feed;
    if a == [] {
      assert a + b == b;
    } else {
      assert (a + b)[0] == a[0] && (a + b)[1..] == a[1..] + b;
      RegisterConcat(Feed(r, a[0]), a[1..], b);
    }
  }

  // ----- residue ----------------------------------------------------------

  /** A register whose low byte is clear moves down eight places unchanged. */
  lemma ClearLowByte(h: bv16)
    requires h & 0xFF == 0
    ensures Shifts(h, 8) == h >> 8
  {
    hide Shift;
    ShiftEven(h, h >> 1);
    ShiftEven(h >> 1, h >> 2);
    ShiftEven(h >> 2, h >> 3);
    ShiftEven(h >> 3, h >> 4);
    ShiftEven(h >> 4, h >> 5);
    ShiftEven(h >> 5, h >> 6);
    ShiftEven(h >> 6, h >> 7);
    ShiftEven(h >> 7, h >> 8);
    assert Shifts(h, 8) == Shifts(h >> 2, 6);
    assert Shifts(h >> 2, 6) == Shifts(h >> 4, 4);
    assert Shifts(h >> 4, 4) == Shifts(h >> 6, 2);
  }

  lemma ShiftEven(r: bv16, half: bv16)
    requires r & 1 == 0 && half == r >> 1
    ensures Shift(r) == half
  {
  }

  lemma WordSplits(lo: bv8, hi: bv8)
    ensures Plus(Word(lo, hi), lo as bv16) & 0xFF == 0
    ensures Plus(Word(lo, hi), lo as bv16) >> 8 == hi as bv16
    ensures Low(Word(lo, hi)) == lo && High(Word(lo, hi)) == hi
  {
  }

  lemma WordJoins(r: bv16)
    ensures r == Word(Low(r), High(r))
  {
  }

  lemma PlusRightCancels(a: bv16, b: bv16, c: bv16)
    ensures Plus(a, c) == Plus(b, c) <==> a == b
  {
  }

  lemma RegisterPair(r: bv16, lo: bv8, hi: bv8)
    ensures Register(r, [lo, hi]) == Feed(Feed(r, lo), hi)
  {
    hide Feed;
    assert [lo, hi][1..] == [hi] && [hi][1..] == [];
    assert Register(r, [lo, hi]) == Register(Feed(r, lo), [hi]);
  }

  lemma FeedWord(lo: bv8, hi: bv8)
    ensures Feed(Word(lo, hi), lo) == hi as bv16
  {
    hide Shift, Plus, Word;
    WordSplits(lo, hi);
    ClearLowByte(Plus(Word(lo, hi), lo as bv16));
  }

  /** Feeding the two trailer bytes to a register empties it exactly when they
      spell that register, low byte first. */
  lemma TrailerEmptiesRegister(r: bv16, lo: bv8, hi: bv8)
    ensures Register(r, [lo, hi]) == 0 <==> r == Word(lo, hi)
  {
    hide Shift, Plus, Word, Shifts;
    RegisterPair(r, lo, hi);
    FeedWord(lo, hi);
    ShiftsZero(8);
    PlusCancels(Feed(r, lo), hi as bv16);
    ShiftsInjective(Plus(Feed(r, lo), hi as bv16), 0, 8);
    ShiftsInjective(Plus(r, lo as bv16), Plus(Word(lo, hi), lo as bv16), 8);
    PlusRightCancels(r, Word(lo, hi), lo as bv16);
  }

  lemma AcceptedIffResidueZero(frame: seq<bv8>)
    requires |frame| >= 2
    ensures Register(INITIAL, frame) == 0
      <==> Trailer(frame) == Register(INITIAL, frame[..|frame| - 2])
  {
    hide Feed, Word;
    var body, tail := frame[..|frame| - 2], frame[|frame| - 2..];
    assert frame == body + tail && tail == [frame[|frame| - 2], frame[|frame| - 1]];
    RegisterConcat(INITIAL, body, tail);
    TrailerEmptiesRegister(Register(INITIAL, body), tail[0], tail[1]);
  }

  /** Round trip: an appended checksum leaves residue zero over the whole frame,
      and no other two trailing bytes do. */
  lemma AppendThenCheck(frame: seq<bv8>, lo: bv8, hi: bv8)
    ensures Register(INITIAL, AppendCrc(frame)) == 0
    ensures Register(INITIAL, frame + [lo, hi]) == 0 ==> frame + [lo, hi] == AppendCrc(frame)
  {
    hide Feed, Word, Low, High;
    var crc := Register(INITIAL, frame);
    WordJoins(crc);
    RegisterConcat(INITIAL, frame, [Low(crc), High(crc)]);
    TrailerEmptiesRegister(crc, Low(crc), High(crc));
    RegisterConcat(INITIAL, frame, [lo, hi]);
    TrailerEmptiesRegister(crc, lo, hi);
    WordSplits(lo, hi);
  }

  // ----- corrupted frames -------------------------------------------------

  function Xor(a: seq<bv8>, b: seq<bv8>): (c: seq<bv8>)
    requires |a| == |b|
    ensures |c| == |a| && forall i :: 0 <= i < |a| ==> c[i] == a[i] ^ b[i]
  {
    seq(|a|, i requires 0 <= i < |a| => a[i] ^ b[i])
  }

  lemma WidenXor(a: bv8, b: bv8)
    ensures (a ^ b) as bv16 == Plus(a as bv16, b as bv16)
  {
  }

  lemma FeedPlus(r: bv16, s: bv16, a: bv8, b: bv8)
    ensures Feed(Plus(r, s), a ^ b) == Plus(Feed(r, a), Feed(s, b))
  {
    hide Shifts, Plus;
    WidenXor(a, b);
    PlusExchange(r, s, a as bv16, b as bv16);
    ShiftsPlus(Plus(r, a as bv16), Plus(s, b as bv16), 8);
  }

  /** The update is affine: the register of a sum is the sum of the registers. */
  lemma {:induction false} RegisterPlus(r: bv16, s: bv16, a: seq<bv8>, b: seq<bv8>)
    requires |a| == |b|
    ensures Register(Plus(r, s), Xor(a, b)) == Plus(Register(r, a), Register(s, b))
    decreases a
  {
    hide Feed, Plus;
    if a != [] {
      assert Xor(a, b)[1..] == Xor(a[1..], b[1..]);
      FeedPlus(r, s, a[0], b[0]);
      RegisterPlus(Feed(r, a[0]), Feed(s, b[0]), a[1..], b[1..]);
    }
  }

  /** What a corrupted frame leaves in the register depends on the error alone. */
  lemma CorruptedResidue(frame: seq<bv8>, error: seq<bv8>)
    requires |frame| == |error|
    requires Register(INITIAL, frame) == 0
    ensures Register(INITIAL, Xor(frame, error)) == Register(0, error)
  {
    hide Feed, Plus;
    PlusZero(INITIAL);
    RegisterPlus(INITIAL, 0, frame, error);
    PlusZero(Register(0, error));
  }

  // ----- odd numbers of flipped bits --------------------------------------

  // Set bits among the low n of a register.
  function OnesIn(r: bv16, n: nat): nat
    decreases n
  {
    if n == 0 then 0 else (if Odd(r) then 1 else 0) + OnesIn(Half(r), n - 1)
  }

  function Ones(r: bv16): nat { OnesIn(r, 16) }

  function ByteOnes(b: bv8): nat { Ones(b as bv16) }

  function FlippedBits(error: seq<bv8>): nat {
    if error == [] then 0 else ByteOnes(error[0]) + FlippedBits(error[1..])
  }

  lemma {:induction false} OnesInPlus(a: bv16, b: bv16, n: nat)
    ensures OnesIn(Plus(a, b), n) % 2 == (OnesIn(a, n) + OnesIn(b, n)) % 2
    decreases n
  {
    hide Plus, Half, Odd;
    if n > 0 {
      PlusLowBit(a, b);
      OnesInPlus(Half(a), Half(b), n - 1);
    }
  }

  function Halved(r: bv16, n: nat): bv16
    decreases n
  {
    if n == 0 then r else Halved(Half(r), n - 1)
  }

  lemma {:induction false} OnesInTop(r: bv16, n: nat)
    ensures OnesIn(r, n + 1) == OnesIn(r, n) + (if Odd(Halved(r, n)) then 1 else 0)
    decreases n
  {
    hide Half, Odd;
    if n > 0 { OnesInTop(Half(r), n - 1); }
  }

  lemma FourHalves(r: bv16)
    ensures Half(Half(Half(Half(r)))) == r >> 4
  {
  }

  lemma HalvedFour(r: bv16, n: nat)
    ensures Halved(r, n + 4) == Halved(r >> 4, n)
  {
    hide Half;
    FourHalves(r);
    var a := Half(r);
    var b := Half(a);
    var c := Half(b);
    assert Halved(r, n + 4) == Halved(a, n + 3);
    assert Halved(a, n + 3) == Halved(b, n + 2);
    assert Halved(b, n + 2) == Halved(c, n + 1);
    assert Halved(c, n + 1) == Halved(Half(c), n);
  }

  lemma HalvedTwelve(r: bv16, n: nat)
    ensures Halved(r, n + 12) == Halved(r >> 12, n)
  {
    hide Halved;
    HalvedFour(r, n + 8);
    HalvedFour(r >> 4, n + 4);
    HalvedFour(r >> 8, n);
    ShiftTwice(r);
  }

  lemma ShiftTwice(r: bv16)
    ensures (r >> 4) >> 4 == r >> 8 && (r >> 8) >> 4 == r >> 12
  {
  }

  lemma HalvedThree(r: bv16)
    ensures Halved(r, 3) == Half(Half(Half(r)))
  {
    hide Half;
    assert Halved(r, 3) == Halved(Half(r), 2);
    assert Halved(Half(r), 2) == Halved(Half(Half(r)), 1);
    assert Halved(Half(Half(r)), 1) == Half(Half(Half(r)));
  }

  lemma NothingLeft(r: bv16)
    ensures Half(Half(Half(Half(r) >> 12))) == 0
  {
  }

  lemma HalvedFifteen(r: bv16)
    ensures Halved(Half(r), 15) == 0
  {
    hide Halved, Half;
    HalvedTwelve(Half(r), 3);
    HalvedThree(Half(r) >> 12);
    NothingLeft(r);
  }

  lemma PolynomialWeight()
    ensures Ones(0xA001) == 3
  {
    assert OnesIn(0xA001, 16) == 1 + OnesIn(0x2800, 14);
    assert OnesIn(0x2800, 14) == OnesIn(0x0A00, 12);
    assert OnesIn(0x0A00, 12) == OnesIn(0x0280, 10);
    assert OnesIn(0x0280, 10) == OnesIn(0x00A0, 8);
    assert OnesIn(0x00A0, 8) == OnesIn(0x0028, 6);
    assert OnesIn(0x0028, 6) == OnesIn(0x000A, 4);
    assert OnesIn(0x000A, 4) == 1 + OnesIn(0x0002, 2);
    assert OnesIn(0x0002, 2) == 1;
  }

  /** One shift of the register keeps the parity of its set bits: the bit that
      leaves is made up for by the three bits of the polynomial. */
  lemma ShiftKeepsParity(r: bv16)
    ensures Ones(Shift(r)) % 2 == Ones(r) % 2
  {
    hide Plus, OnesIn, Half, Odd;
    OnesHalved(r);
    OnesInPlus(Half(r), 0xA001, 16);
    PolynomialWeight();
  }

  lemma OnesHalved(r: bv16)
    ensures Ones(r) == (if Odd(r) then 1 else 0) + Ones(Half(r))
  {
    hide Half, Odd;
    OnesInTop(Half(r), 15);
    HalvedFifteen(r);
    HalfZero();
  }

  lemma HalfZero()
    ensures Half(0) == 0 && !Odd(0)
  {
  }

  lemma {:induction false} ShiftsKeepParity(r: bv16, n: nat)
    ensures Ones(Shifts(r, n)) % 2 == Ones(r) % 2
    decreases n
  {
    hide Shift, Ones;
    if n > 0 {
      ShiftKeepsParity(r);
      ShiftsKeepParity(Shift(r), n - 1);
    }
  }

  /** The register's bit parity is its starting parity plus the data's. */
  lemma {:induction false} RegisterParity(r: bv16, data: seq<bv8>)
    ensures Ones(Register(r, data)) % 2 == (Ones(r) + FlippedBits(data)) % 2
    decreases data
  {
    hide Feed, Ones, ByteOnes;
    if data != [] {
      FeedParity(r, data[0]);
      RegisterParity(Feed(r, data[0]), data[1..]);
    }
  }

  lemma FeedParity(r: bv16, b: bv8)
    ensures Ones(Feed(r, b)) % 2 == (Ones(r) + ByteOnes(b)) % 2
  {
    hide Shifts, Plus, OnesIn;
    ShiftsKeepParity(Plus(r, b as bv16), 8);
    OnesInPlus(r, b as bv16, 16);
  }

  lemma {:induction false} OnesInZero(n: nat)
    ensures OnesIn(0, n) == 0
  {
    if n > 0 { OnesInZero(n - 1); }
  }

  /** Any odd number of flipped bits, anywhere in the frame, is detected. */
  lemma OddErrorsDetected(frame: seq<bv8>, error: seq<bv8>)
    requires |frame| == |error|
    requires Register(INITIAL, frame) == 0
    requires FlippedBits(error) % 2 == 1
    ensures Register(INITIAL, Xor(frame, error)) != 0
  {
    hide Feed, OnesIn;
    CorruptedResidue(frame, error);
    RegisterParity(0, error);
    OnesInZero(16);
  }

  // ----- bursts -----------------------------------------------------------

  // Bits of a byte in transmission order: least significant first.
  function Bits(b: bv8): (s: seq<bool>)
    ensures |s| == 8
  {
    [b & 1 != 0, b & 2 != 0, b & 4 != 0, b & 8 != 0,
     b & 16 != 0, b & 32 != 0, b & 64 != 0, b & 128 != 0]
  }

  function Stream(data: seq<bv8>): (s: seq<bool>)
    ensures |s| == 8 * |data|
  {
    if data == [] then [] else Bits(data[0]) + Stream(data[1..])
  }

  function Bit(b: bool): bv16 { if b then 1 else 0 }

  // The bit-serial register: one bit in, one shift.
  function Serial(r: bv16, bits: seq<bool>): bv16
    decreases bits
  {
    if bits == [] then r else Serial(Shift(Plus(r, Bit(bits[0]))), bits[1..])
  }

  // Prepend one bit below a word.
  function Push(b: bool, p: bv16): bv16 { Plus(Bit(b), Double(p)) }

  function Double(p: bv16): bv16 { p << 1 }

  // Up to sixteen bits read as one word, first bit least significant.
  function Pack(bits: seq<bool>): bv16 {
    if bits == [] then 0 else Push(bits[0], Pack(bits[1..]))
  }

  predicate Zeros(bits: seq<bool>) { forall i :: 0 <= i < |bits| ==> !bits[i] }

  // Words of at most n bits.
  predicate Fits(p: bv16, n: nat) {
    if n == 0 then p == 0 else Fits(Half(p), n - 1)
  }

  lemma DoubleHalves(p: bv16)
    requires p & 0x8000 == 0
    ensures Half(Double(p)) == p
    ensures !Odd(Double(p))
  {
  }

  lemma BitHalves(b: bool)
    ensures Half(Bit(b)) == 0
    ensures Odd(Bit(b)) <==> b
  {
  }

  lemma PushUndone(b: bool, p: bv16)
    requires p & 0x8000 == 0
    ensures Half(Push(b, p)) == p
    ensures Odd(Push(b, p)) <==> b
  {
    hide Plus, Double, Bit, Half, Odd;
    DoubleHalves(p);
    BitHalves(b);
    PlusLowBit(Bit(b), Double(p));
    PlusZero(p);
  }

  lemma DoubleShifts(p: bv16)
    requires p & 0x8000 == 0
    ensures Shift(Double(p)) == p
  {
    hide Plus, Double, Half, Odd;
    DoubleHalves(p);
  }

  lemma FitsTop(p: bv16, n: nat)
    requires n <= 15 && Fits(p, n)
    ensures p & 0x8000 == 0
  {
    hide Half;
    HalvedFits(p, n, 15);
    HalvedTop(p);
  }

  lemma TopBit(p: bv16)
    ensures Half(Half(Half(p >> 12))) == 0 ==> p & 0x8000 == 0
  {
  }

  lemma HalvedTop(p: bv16)
    requires Halved(p, 15) == 0
    ensures p & 0x8000 == 0
  {
    hide Halved, Half;
    HalvedTwelve(p, 3);
    HalvedThree(p >> 12);
    TopBit(p);
  }

  lemma {:induction false} HalvedFits(p: bv16, n: nat, m: nat)
    requires n <= m && Fits(p, n)
    ensures Halved(p, m) == 0
    decreases m
  {
    if m > 0 {
      if n == 0 {
        assert Half(p) == 0;
        HalvedFits(Half(p), 0, m - 1);
      } else {
        HalvedFits(Half(p), n - 1, m - 1);
      }
    }
  }

  lemma {:induction false} PackFits(bits: seq<bool>)
    requires |bits| <= 16
    ensures Fits(Pack(bits), |bits|)
  {
    hide Push, Plus, Shift, Half, Odd;
    if bits != [] {
      PackFits(bits[1..]);
      FitsTop(Pack(bits[1..]), |bits| - 1);
      PushUndone(bits[0], Pack(bits[1..]));
    }
  }

  lemma ShiftAbsorbs(r: bv16, b: bool, p: bv16)
    requires p & 0x8000 == 0
    ensures Shift(Plus(r, Push(b, p))) == Plus(Shift(Plus(r, Bit(b))), p)
  {
    hide Double, Plus, Shift, Bit;
    DoubleShifts(p);
    PlusAssociates(r, Bit(b), Double(p));
    ShiftPlus(Plus(r, Bit(b)), Double(p));
  }

  /** Feeding at most sixteen bits one at a time equals adding them as one word
      and then shifting. */
  lemma {:induction false} SerialIsShifts(r: bv16, bits: seq<bool>)
    requires |bits| <= 16
    ensures Serial(r, bits) == Shifts(Plus(r, Pack(bits)), |bits|)
    decreases bits
  {
    hide Push, Plus, Shift, Bit;
    if bits == [] {
      PlusZero(r);
    } else {
      PackFits(bits[1..]);
      FitsTop(Pack(bits[1..]), |bits| - 1);
      ShiftAbsorbs(r, bits[0], Pack(bits[1..]));
      SerialIsShifts(Shift(Plus(r, Bit(bits[0]))), bits[1..]);
    }
  }

  lemma {:induction false} PackZero(bits: seq<bool>)
    requires |bits| <= 16
    ensures Pack(bits) == 0 ==> Zeros(bits)
  {
    hide Push, Plus, Shift, Half, Odd;
    if bits != [] {
      PackFits(bits[1..]);
      FitsTop(Pack(bits[1..]), |bits| - 1);
      PushUndone(bits[0], Pack(bits[1..]));
      HalfZero();
      PackZero(bits[1..]);
      assert forall i :: 0 < i < |bits| ==> bits[i] == bits[1..][i - 1];
    }
  }

  lemma PackOne(bits: seq<bool>, i: nat)
    requires i < |bits|
    ensures Pack(bits[i..]) == Push(bits[i], Pack(bits[i + 1..]))
  {
    hide Push;
    assert bits[i..][0] == bits[i] && bits[i..][1..] == bits[i + 1..];
  }

  lemma PackEight(s: seq<bool>)
    requires |s| == 8
    ensures Pack(s) == Push(s[0], Push(s[1], Push(s[2], Push(s[3], Push(s[4], Push(s[5], Push(s[6], Push(s[7], 0))))))))
  {
    hide Push;
    assert s[0..] == s && s[8..] == [] && Pack([]) == 0;
    hide Pack;
    PackOne(s, 0);
    PackOne(s, 1);
    PackOne(s, 2);
    PackOne(s, 3);
    PackOne(s, 4);
    PackOne(s, 5);
    PackOne(s, 6);
    PackOne(s, 7);
  }

  lemma PushBits(b: bv8)
    ensures var s := Bits(b);
      Push(s[0], Push(s[1], Push(s[2], Push(s[3], Push(s[4], Push(s[5], Push(s[6], Push(s[7], 0)))))))) == b as bv16
  {
  }

  lemma PackBits(b: bv8)
    ensures Pack(Bits(b)) == b as bv16
  {
    hide Push, Pack;
    PackEight(Bits(b));
    PushBits(b);
  }

  lemma {:induction false} SerialConcat(r: bv16, a: seq<bool>, b: seq<bool>)
    ensures Serial(r, a + b) == Serial(Serial(r, a), b)
    decreases a
  {
    hide Plus, Shift, Bit;
    if a == [] {
      assert a + b == b;
    } else {
      assert (a + b)[0] == a[0] && (a + b)[1..] == a[1..] + b;
      SerialConcat(Shift(Plus(r, Bit(a[0]))), a[1..], b);
    }
  }

  /** The byte-wise loop and the bit-serial register agree on every frame. */
  lemma {:induction false} RegisterIsSerial(r: bv16, data: seq<bv8>)
    ensures Register(r, data) == Serial(r, Stream(data))
    decreases data
  {
    hide Plus, Shifts, Bits;
    if data != [] {
      PackBits(data[0]);
      SerialIsShifts(r, Bits(data[0]));
      SerialConcat(r, Bits(data[0]), Stream(data[1..]));
      RegisterIsSerial(Feed(r, data[0]), data[1..]);
    }
  }

  lemma {:induction false} SerialZeros(r: bv16, bits: seq<bool>)
    requires Zeros(bits)
    ensures Serial(r, bits) == 0 <==> r == 0
    decreases bits
  {
    hide Plus, Shift;
    if bits != [] {
      PlusZero(r);
      ShiftZero();
      if Shift(r) == 0 { ShiftInjective(r, 0); }
      SerialZeros(Shift(r), bits[1..]);
    }
  }

  lemma ZerosJoin(s: seq<bool>, from: nat, to: nat)
    requires from <= to <= |s|
    requires Zeros(s[..from]) && Zeros(s[to..])
    ensures Zeros(s[from..to]) ==> Zeros(s)
  {
    forall i | 0 <= i < |s| && Zeros(s[from..to]) ensures !s[i] {
      if i < from {
        assert s[i] == s[..from][i];
      } else if i < to {
        assert s[i] == s[from..to][i - from];
      } else {
        assert s[i] == s[to..][i - to];
      }
    }
  }

  lemma BurstAlone(burst: seq<bool>)
    requires |burst| <= 16
    ensures Serial(0, burst) == 0 ==> Zeros(burst)
  {
    hide Serial, Pack, Shifts, Plus, Zeros;
    SerialIsShifts(0, burst);
    ShiftsZero(|burst|);
    PlusZero(Pack(burst));
    ShiftsInjective(Pack(burst), 0, |burst|);
    PackZero(burst);
  }

  lemma BurstSeen(s: seq<bool>, from: nat, width: nat)
    requires width <= 16 && from + width <= |s|
    requires !Zeros(s) && Zeros(s[..from]) && Zeros(s[from + width..])
    ensures Serial(0, s) != 0
  {
    hide Serial, Zeros;
    var before, burst, after := s[..from], s[from..from + width], s[from + width..];
    assert s == before + (burst + after);
    SerialConcat(0, before, burst + after);
    SerialConcat(0, burst, after);
    SerialZeros(0, before);
    BurstAlone(burst);
    SerialZeros(Serial(0, burst), after);
    ZerosJoin(s, from, from + width);
  }

  /** Every error burst confined to sixteen consecutive transmitted bits is
      detected, whatever the frame length and wherever the burst lies. */
  lemma BurstsDetected(frame: seq<bv8>, error: seq<bv8>, from: nat, width: nat)
    requires |frame| == |error|
    requires Register(INITIAL, frame) == 0
    requires width <= 16 && from + width <= 8 * |error|
    requires !Zeros(Stream(error))
    requires Zeros(Stream(error)[..from]) && Zeros(Stream(error)[from + width..])
    ensures Register(INITIAL, Xor(frame, error)) != 0
  {
    hide *;
    CorruptedResidue(frame, error);
    RegisterIsSerial(0, error);
    BurstSeen(Stream(error), from, width);
  }

  // ----- the check value --------------------------------------------------

  lemma {:induction false} RegisterLast(r: bv16, data: seq<bv8>, b: bv8)
    ensures Register(r, data + [b]) == Feed(Register(r, data), b)
    decreases data
  {
    hide Feed;
    if data == [] {
      assert [] + [b] == [b] && [b][1..] == [];
      assert Register(Feed(r, b), []) == Feed(r, b);
    } else {
      assert (data + [b])[0] == data[0] && (data + [b])[1..] == data[1..] + [b];
      RegisterLast(Feed(r, data[0]), data[1..], b);
    }
  }

  // The register after each digit.
  lemma FedDigits()
    ensures Feed(0xFFFF, 0x31) == 0x947E
    ensures Feed(0x947E, 0x32) == 0xF595
    ensures Feed(0xF595, 0x33) == 0x7A75
    ensures Feed(0x7A75, 0x34) == 0x30BA
    ensures Feed(0x30BA, 0x35) == 0xA471
    ensures Feed(0xA471, 0x36) == 0x32E4
    ensures Feed(0x32E4, 0x37) == 0x9D73
    ensures Feed(0x9D73, 0x38) == 0x37DD
    ensures Feed(0x37DD, 0x39) == 0x4B37
  {
  }

  lemma FedNext(s: seq<bv8>, k: nat, r: bv16)
    requires k < |s| && Register(INITIAL, s[..k]) == r
    ensures Register(INITIAL, s[..k + 1]) == Feed(r, s[k])
  {
    hide Feed, Register;
    RegisterLast(INITIAL, s[..k], s[k]);
    assert s[..k + 1] == s[..k] + [s[k]];
  }

  lemma NothingFed(s: seq<bv8>)
    ensures Register(INITIAL, s[..0]) == 0xFFFF
  {
  }

  const DIGITS: seq<bv8> := [0x31, 0x32, 0x33, 0x34, 0x35, 0x36, 0x37, 0x38, 0x39]

  /** The published check value of this checksum: 0x4B37 for the digits 1 to 9. */
  lemma CheckValue()
    ensures Register(INITIAL, DIGITS) == 0x4B37
  {
    hide Feed, Register;
    FedDigits();
    NothingFed(DIGITS);
    FedNext(DIGITS, 0, 0xFFFF);
    FedNext(DIGITS, 1, 0x947E);
    FedNext(DIGITS, 2, 0xF595);
    FedNext(DIGITS, 3, 0x7A75);
    FedNext(DIGITS, 4, 0x30BA);
    FedNext(DIGITS, 5, 0xA471);
    FedNext(DIGITS, 6, 0x32E4);
    FedNext(DIGITS, 7, 0x9D73);
    FedNext(DIGITS, 8, 0x37DD);
    assert DIGITS[..9] == DIGITS;
  }
}
