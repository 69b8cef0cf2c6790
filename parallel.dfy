/**
 * The parallel bus library (parallel.c): pin set-up, the serialisation of
 * bytes into clock cycles of GPIO set/clear masks and back, the
 * register-select levels of the four entry points, and the GPIO helpers.
 *
 * A 32-bit GPIO register or mask is a `Word`: its 32 bits, bit k standing
 * for 2^k, with the C bit operators written out bit by bit.  Timing (the
 * busy waits between stores) is not modelled; a clock cycle is the pair of
 * masks stored into GPSET0 and GPCLR0 while the clock is asserted.
 */
module Parallel {
  import opened Bus

  const GPSET0: nat := 7
  const GPCLR0: nat := 10
  const GPLEV0: nat := 13
  const UNDEFINED: nat := 0xFFFF

  // ---------------------------------------------------------------- words

  type Word = s: seq<bool> | |s| == 32 witness seq(32, k => false)

  function Zero(): Word { seq(32, k => false) }

  /** `1 << n`; for n >= 32 (undefined in C) no bit is set. */
  function Bit(n: int): Word { seq(32, k => k == n) }

  function Or(a: Word, b: Word): Word { seq(32, k requires 0 <= k < 32 => a[k] || b[k]) }

  function And(a: Word, b: Word): Word { seq(32, k requires 0 <= k < 32 => a[k] && b[k]) }

  function Not(a: Word): Word { seq(32, k requires 0 <= k < 32 => !a[k]) }

  function Shl(a: Word, n: nat): Word { seq(32, k requires 0 <= k < 32 => k >= n && a[k - n]) }

  function Shr(a: Word, n: nat): Word { seq(32, k requires 0 <= k < 32 => k + n < 32 && a[k + n]) }

  /** The field mask 7. */
  function Seven(): Word { seq(32, k => k < 3) }

  /** The mode values PI_INPUT (0) and PI_OUTPUT (1). */
  function Input(): Word { Zero() }
  function Output(): Word { Bit(0) }

  /** A mode value that fits in its 3-bit field. */
  predicate Fits3(mode: Word)
  {
    forall k :: 3 <= k < 32 ==> !mode[k]
  }

  // ------------------------------------------------ function-select fields

  /** Bit offset of a GPIO's 3-bit field inside its function-select word. */
  function Shift(gpio: nat): nat { (gpio % 10) * 3 }

  /** `(w & ~(7 << shift)) | (mode << shift)` */
  function SetFunction(w: Word, gpio: nat, mode: Word): Word
  {
    Or(And(w, Not(Shl(Seven(), Shift(gpio)))), Shl(mode, Shift(gpio)))
  }

  /** `(w >> shift) & 7` */
  function GetFunction(w: Word, gpio: nat): Word
  {
    And(Shr(w, Shift(gpio)), Seven())
  }

  /**
   * gpioSetMode followed by gpioGetMode returns the mode's low three bits;
   * a mode that fits its field leaves every other field of the word, and the
   * two spare top bits, as they were.
   */
  lemma GetAfterSet(w: Word, gpio: nat, mode: Word, other: nat)
    ensures GetFunction(SetFunction(w, gpio, mode), gpio) == And(mode, Seven())
    ensures other % 10 != gpio % 10 && Fits3(mode) ==>
      GetFunction(SetFunction(w, gpio, mode), other) == GetFunction(w, other)
    ensures Fits3(mode) ==> SetFunction(w, gpio, mode)[30] == w[30] && SetFunction(w, gpio, mode)[31] == w[31]
  {
    var r := SetFunction(w, gpio, mode);
    var s := Shift(gpio);
    forall k | 0 <= k < 32
      ensures GetFunction(r, gpio)[k] == And(mode, Seven())[k]
    {
      if k < 3 {
        assert r[k + s] == mode[k];
      }
    }
    if other % 10 != gpio % 10 && Fits3(mode) {
      var t := Shift(other);
      forall k | 0 <= k < 32
        ensures GetFunction(r, other)[k] == GetFunction(w, other)[k]
      {
        if k < 3 && k + t < 32 {
          assert !(s <= k + t < s + 3);
          assert r[k + t] == w[k + t];
        }
      }
    }
  }

  /** The mode field of `gpio` in a buffer of function-select words. */
  function Mode(buf: seq<Word>, gpio: nat): Word
    requires gpio / 10 < |buf|
  {
    GetFunction(buf[gpio / 10], gpio)
  }

  /**
   * The loops of initialise and writeparallel that set the mode of each of
   * `lines` in the local copy `gpioBuf` of the function-select words.  Lines
   * equal to UNDEFINED are skipped, as initialise does; writeparallel only
   * passes data lines, which are never UNDEFINED there.
   */
  method SetModes(buf: array<Word>, lines: seq<nat>, mode: Word)
    requires Fits3(mode) && 10 * buf.Length <= UNDEFINED
    requires forall k :: 0 <= k < |lines| && lines[k] != UNDEFINED ==> lines[k] < 10 * buf.Length
    modifies buf
    ensures forall g :: 0 <= g < 10 * buf.Length ==>
      Mode(buf[..], g) == if g in lines then mode else Mode(old(buf[..]), g)
    ensures forall w :: 0 <= w < buf.Length ==> buf[w][30] == old(buf[w][30]) && buf[w][31] == old(buf[w][31])
  {
    var i := 0;
    while i < |lines|
      invariant 0 <= i <= |lines|
      invariant forall g :: 0 <= g < 10 * buf.Length ==>
        Mode(buf[..], g) == if g in lines[..i] then mode else Mode(old(buf[..]), g)
      invariant forall w :: 0 <= w < buf.Length ==> buf[w][30] == old(buf[w][30]) && buf[w][31] == old(buf[w][31])
    {
      if lines[i] != UNDEFINED {
        var p := lines[i];
        ghost var before := buf[..];
        buf[p / 10] := SetFunction(buf[p / 10], p, mode);
        forall g | 0 <= g < 10 * buf.Length
          ensures Mode(buf[..], g) == if g in lines[..i + 1] then mode else Mode(old(buf[..]), g)
        {
          assert lines[..i + 1] == lines[..i] + [p];
          GetAfterSet(before[p / 10], p, mode, g);
          assert And(mode, Seven()) == mode;
          if g / 10 != p / 10 {
            assert buf[..][g / 10] == before[g / 10];
          } else if g != p {
            assert g % 10 != p % 10;
          }
        }
        forall w | 0 <= w < buf.Length
          ensures buf[w][30] == old(buf[w][30]) && buf[w][31] == old(buf[w][31])
        {
          if w == p / 10 {
            GetAfterSet(before[w], p, mode, p);
          }
        }
      } else {
        forall g | 0 <= g < 10 * buf.Length
          ensures (g in lines[..i + 1]) == (g in lines[..i])
        {
          assert lines[..i + 1] == lines[..i] + [lines[i]];
        }
      }
      i := i + 1;
    }
    assert lines[..i] == lines;
  }

  // ------------------------------------------------------------- the chip

  /** The `pins` view of `union chip`: d7, d6, d5, d4, d3, d2, d1, d0, rscd, enwr, rwrd. */
  datatype Chip = Chip(pins: seq<nat>, protocol: nat)

  predicate WellFormed(c: Chip) { |c.pins| == 11 }

  function D0(c: Chip): nat requires WellFormed(c) { c.pins[7] }
  function RsCd(c: Chip): nat requires WellFormed(c) { c.pins[8] }
  function EnWr(c: Chip): nat requires WellFormed(c) { c.pins[9] }
  function RwRd(c: Chip): nat requires WellFormed(c) { c.pins[10] }

  /** The C cast `(unsigned)x`. */
  function Unsigned(x: int): nat { x % 0x1_0000_0000 }

  /** The lines that may be left out: d3, d2, d1, d0 and rwrd. */
  predicate OptionalLine(k: nat) { 4 <= k <= 7 || k == 10 }

  /** The pin numbers initialise stores, from its eleven line arguments in pin order. */
  function Initialise(lines: seq<int>, protocol: int): (c: Chip)
    requires |lines| == 11
    ensures WellFormed(c) && c.protocol == Unsigned(protocol)
    ensures forall k :: 0 <= k < 11 && OptionalLine(k) ==>
      c.pins[k] == if 0 <= lines[k] <= 27 then lines[k] else UNDEFINED
    ensures forall k :: 0 <= k < 11 && !OptionalLine(k) ==> c.pins[k] == Unsigned(lines[k])
  {
    Chip(seq(11, k requires 0 <= k < 11 =>
           if !OptionalLine(k) then Unsigned(lines[k])
           else if lines[k] > 27 || lines[k] < 0 then UNDEFINED
           else lines[k]),
         Unsigned(protocol))
  }

  /** Bits per clock cycle: 4 when d0 is absent, else 8. */
  function Bpc(c: Chip): nat
    requires WellFormed(c)
  {
    if D0(c) == UNDEFINED then 4 else 8
  }

  /** The bus is 4 bits wide exactly when d0 was given outside 0..27; a byte then takes two cycles. */
  lemma FourBitBus(lines: seq<int>, protocol: int)
    requires |lines| == 11
    ensures Bpc(Initialise(lines, protocol)) == 4 <==> !(0 <= lines[7] <= 27)
    ensures 8 / Bpc(Initialise(lines, protocol)) == if 0 <= lines[7] <= 27 then 1 else 2
  {
  }

  /**
   * Initialise with the mode passes on the three-word copy of the
   * function-select registers: data lines become inputs, control lines
   * outputs, absent lines are skipped.
   */
  method ConfigureModes(buf: array<Word>, c: Chip)
    requires WellFormed(c) && buf.Length == 3
    requires forall k :: 0 <= k < 11 && c.pins[k] != UNDEFINED ==> c.pins[k] < 30
    modifies buf
    ensures forall g :: 0 <= g < 30 ==>
      Mode(buf[..], g) ==
        if g in c.pins[8..] then Output()
        else if g in c.pins[..8] then Input()
        else Mode(old(buf[..]), g)
  {
    assert Fits3(Input()) && Fits3(Output());
    ghost var start := buf[..];
    SetModes(buf, c.pins[..8], Input());
    ghost var mid := buf[..];
    SetModes(buf, c.pins[8..], Output());
    forall g | 0 <= g < 30
      ensures Mode(buf[..], g) ==
        if g in c.pins[8..] then Output()
        else if g in c.pins[..8] then Input()
        else Mode(start, g)
    {
      assert Mode(mid, g) == if g in c.pins[..8] then Input() else Mode(start, g);
    }
  }

  // ---------------------------------------------------- the data cycles

  /** The mask of bit m of a byte counted from the most significant bit (m = 0 is 0x80). */
  function BitMask(m: nat): bv8
    requires m < 8
  {
    if m == 0 then 0x80 else if m == 1 then 0x40 else if m == 2 then 0x20 else if m == 3 then 0x10
    else if m == 4 then 0x08 else if m == 5 then 0x04 else if m == 6 then 0x02 else 0x01
  }

  /** Bit m of b counted from the most significant bit. */
  function BitAt(b: bv8, m: nat): bool
    requires m < 8
  {
    b & BitMask(m) != 0
  }

  /** The bits of a byte, most significant first. */
  function Bits(b: bv8): (r: seq<bool>)
    ensures |r| == 8
  {
    seq(8, m requires 0 <= m < 8 => BitAt(b, m))
  }

  /** Two bytes with the same bits are equal. */
  lemma BitsDetermine(a: bv8, b: bv8)
    requires Bits(a) == Bits(b)
    ensures a == b
  {
    assert BitAt(a, 0) == BitAt(b, 0) && BitAt(a, 1) == BitAt(b, 1) by { assert Bits(a)[0] == Bits(b)[0] && Bits(a)[1] == Bits(b)[1]; }
    assert BitAt(a, 2) == BitAt(b, 2) && BitAt(a, 3) == BitAt(b, 3) by { assert Bits(a)[2] == Bits(b)[2] && Bits(a)[3] == Bits(b)[3]; }
    assert BitAt(a, 4) == BitAt(b, 4) && BitAt(a, 5) == BitAt(b, 5) by { assert Bits(a)[4] == Bits(b)[4] && Bits(a)[5] == Bits(b)[5]; }
    assert BitAt(a, 6) == BitAt(b, 6) && BitAt(a, 7) == BitAt(b, 7) by { assert Bits(a)[6] == Bits(b)[6] && Bits(a)[7] == Bits(b)[7]; }
  }

  /** `b << 1` on a byte. */
  function ShiftLeft(b: bv8): bv8 { b << 1 }

  /** `b & 0x80`: the top bit of a byte. */
  predicate TopBit(b: bv8) { b & 0x80 != 0 }

  lemma TopIsFirst(b: bv8)
    ensures TopBit(b) == BitAt(b, 0)
  {
  }

  /** Shifting a byte left by one moves each bit up one place. */
  lemma ShiftUp(b: bv8, m: nat)
    requires m < 7
    ensures BitAt(ShiftLeft(b), m) == BitAt(b, m + 1)
  {
  }

  /** b shifted left n times, as writeparallel shifts its copy of a byte once per line. */
  function Shifted(b: bv8, n: nat): bv8
  {
    if n == 0 then b else ShiftLeft(Shifted(b, n - 1))
  }

  lemma ShiftedNext(b: bv8, n: nat)
    ensures Shifted(b, n + 1) == ShiftLeft(Shifted(b, n))
  {
  }

  /** After n shifts, bit m of the copy is bit n + m of the byte. */
  lemma {:induction false} ShiftedBit(b: bv8, n: nat, m: nat)
    requires n + m < 8
    ensures BitAt(Shifted(b, n), m) == BitAt(b, n + m)
  {
    if n > 0 {
      ShiftUp(Shifted(b, n - 1), m);
      ShiftedBit(b, n - 1, m + 1);
    }
  }

  /** The masks of one clock cycle: `set` (lines driven high) and `clr` (lines driven low). */
  datatype Masks = Masks(high: Word, low: Word)

  /** The clock masks a cycle starts from: enwr high for 6800, low for 8080. */
  function ClockMasks(c: Chip): Masks
    requires WellFormed(c)
  {
    Masks(if c.protocol == 6800 then Bit(EnWr(c)) else Zero(),
          if c.protocol == 8080 then Bit(EnWr(c)) else Zero())
  }

  /**
   * The masks of the cycle that sends the bits of b from position `start`
   * (counted from the top), after the first k data lines are placed.
   */
  function CycleMasks(c: Chip, b: bv8, start: nat, k: nat): Masks
    requires WellFormed(c) && start + k <= 8
  {
    if k == 0 then ClockMasks(c)
    else Place(CycleMasks(c, b, start, k - 1), BitAt(b, start + k - 1), c.pins[k - 1])
  }

  /** A data line added to the set mask when its bit is 1, else to the clear mask. */
  function Place(m: Masks, high: bool, line: nat): Masks
  {
    if high then Masks(Or(m.high, Bit(line)), m.low) else Masks(m.high, Or(m.low, Bit(line)))
  }

  /** The cycles of one byte: one of 8 bits, or two of 4 bits, the high nibble first. */
  function ByteCycles(c: Chip, b: bv8): (r: seq<Masks>)
    requires WellFormed(c)
    ensures |r| == 8 / Bpc(c)
  {
    if Bpc(c) == 8 then [CycleMasks(c, b, 0, 8)]
    else [CycleMasks(c, b, 0, 4), CycleMasks(c, b, 4, 4)]
  }

  /** Cycle j of a byte sends bpc bits from position j * bpc. */
  lemma ByteCycleAt(c: Chip, b: bv8, j: nat)
    requires WellFormed(c) && j < 8 / Bpc(c)
    ensures j * Bpc(c) + Bpc(c) <= 8
    ensures ByteCycles(c, b)[j] == CycleMasks(c, b, j * Bpc(c), Bpc(c))
  {
  }

  /** The data lines in use and the clock line are distinct GPIOs below 32. */
  predicate DistinctLines(c: Chip)
    requires WellFormed(c)
  {
    EnWr(c) < 32
    && (forall k :: 0 <= k < Bpc(c) ==> c.pins[k] < 32 && c.pins[k] != EnWr(c))
    && (forall k, m :: 0 <= k < m < Bpc(c) ==> c.pins[k] != c.pins[m])
  }

  /**
   * What a cycle's masks say about line p: data line q carries bit start+q
   * of the byte, in `set` when it is 1 and in `clr` when it is 0; the clock
   * is in `set` for 6800 and in `clr` for 8080; any other line is in neither.
   */
  lemma {:induction false} MaskLine(c: Chip, b: bv8, start: nat, k: nat, p: nat)
    requires WellFormed(c) && DistinctLines(c) && k <= Bpc(c) && start + k <= 8 && p < 32
    ensures p == EnWr(c) ==>
      CycleMasks(c, b, start, k).high[p] == (c.protocol == 6800)
      && CycleMasks(c, b, start, k).low[p] == (c.protocol == 8080)
    ensures forall q :: 0 <= q < k && c.pins[q] == p ==>
      CycleMasks(c, b, start, k).high[p] == BitAt(b, start + q)
      && CycleMasks(c, b, start, k).low[p] == !BitAt(b, start + q)
    ensures p != EnWr(c) && (forall q :: 0 <= q < k ==> c.pins[q] != p) ==>
      !CycleMasks(c, b, start, k).high[p] && !CycleMasks(c, b, start, k).low[p]
  {
    if k > 0 {
      MaskLine(c, b, start, k - 1, p);
    }
  }

  /** No line is in both masks of a cycle. */
  lemma MasksDisjoint(c: Chip, b: bv8, start: nat, p: nat)
    requires WellFormed(c) && DistinctLines(c) && start + Bpc(c) <= 8 && p < 32
    requires c.protocol == 6800 || c.protocol == 8080
    ensures !(CycleMasks(c, b, start, Bpc(c)).high[p] && CycleMasks(c, b, start, Bpc(c)).low[p])
  {
    MaskLine(c, b, start, Bpc(c), p);
  }

  /**
   * The innermost loop of writeparallel: the data bits of one cycle, taken
   * from the top of `datum`, which is shifted left once per line.  `b` and
   * `start` say which bits of which byte `datum` still holds.
   */
  method CycleOf(c: Chip, datum: bv8, ghost b: bv8, ghost start: nat) returns (m: Masks, rest: bv8)
    requires WellFormed(c) && start + Bpc(c) <= 8
    requires datum == Shifted(b, start)
    ensures m == CycleMasks(c, b, start, Bpc(c))
    ensures rest == Shifted(b, start + Bpc(c))
  {
    var bpc := if D0(c) == UNDEFINED then 4 else 8;
    var clk := EnWr(c);
    var clr, setm := Zero(), Zero();
    if c.protocol == 6800 { setm := Bit(clk); }
    if c.protocol == 8080 { clr := Bit(clk); }
    rest := datum;
    var k := 0;
    while k < bpc
      invariant 0 <= k <= bpc
      invariant Masks(setm, clr) == CycleMasks(c, b, start, k)
      invariant rest == Shifted(b, start + k)
    {
      ShiftedBit(b, start + k, 0);
      TopIsFirst(rest);
      ghost var placed := Place(Masks(setm, clr), TopBit(rest), c.pins[k]);
      assert CycleMasks(c, b, start, k + 1) == placed;
      if TopBit(rest) {
        setm := Or(setm, Bit(c.pins[k]));
      } else {
        clr := Or(clr, Bit(c.pins[k]));
      }
      ShiftedNext(b, start + k);
      rest := ShiftLeft(rest);
      k := k + 1;
    }
    m := Masks(setm, clr);
  }

  /** writeparallel: for each byte, 8/bpc cycles of the bits from the top. */
  method WriteParallel(c: Chip, data: seq<bv8>) returns (cycles: seq<seq<Masks>>)
    requires WellFormed(c)
    ensures |cycles| == |data|
    ensures forall i :: 0 <= i < |data| ==> cycles[i] == ByteCycles(c, data[i])
  {
    var bpc := if D0(c) == UNDEFINED then 4 else 8;
    cycles := [];
    var i := 0;
    while i < |data|
      invariant 0 <= i <= |data|
      invariant |cycles| == i
      invariant forall i' :: 0 <= i' < i ==> cycles[i'] == ByteCycles(c, data[i'])
    {
      var datum := data[i];
      var byteCycles: seq<Masks> := [];
      var j := 8 / bpc;
      ghost var start := 0;
      while j > 0
        invariant 0 <= j <= 8 / bpc
        invariant |byteCycles| == 8 / bpc - j
        invariant start == |byteCycles| * bpc
        invariant byteCycles == ByteCycles(c, data[i])[..|byteCycles|]
        invariant datum == Shifted(data[i], start)
      {
        ByteCycleAt(c, data[i], |byteCycles|);
        var m;
        m, datum := CycleOf(c, datum, data[i], start);
        byteCycles := byteCycles + [m];
        start := start + bpc;
        j := j - 1;
      }
      assert byteCycles == ByteCycles(c, data[i]);
      cycles := cycles + [byteCycles];
      i := i + 1;
    }
  }

  // ------------------------------------------------------------- reading

  /** The levels of the bpc data lines in one reading of GPLEV0, d7 first. */
  function LineLevels(c: Chip, w: Word): (r: seq<bool>)
    requires WellFormed(c) && forall k :: 0 <= k < Bpc(c) ==> c.pins[k] < 32
    ensures |r| == Bpc(c)
  {
    seq(Bpc(c), k requires 0 <= k < Bpc(c) => w[c.pins[k]])
  }

  /** The bits a sequence of readings yields, in the order they are shifted in. */
  function SampledBits(c: Chip, readings: seq<Word>): (r: seq<bool>)
    requires WellFormed(c) && forall k :: 0 <= k < Bpc(c) ==> c.pins[k] < 32
  {
    if readings == [] then [] else LineLevels(c, readings[0]) + SampledBits(c, readings[1..])
  }

  /** One more reading adds the levels of its data lines at the end. */
  lemma {:induction false} SampledBitsSnoc(c: Chip, readings: seq<Word>, w: Word)
    requires WellFormed(c) && forall k :: 0 <= k < Bpc(c) ==> c.pins[k] < 32
    ensures SampledBits(c, readings + [w]) == SampledBits(c, readings) + LineLevels(c, w)
    ensures |SampledBits(c, readings)| == |readings| * Bpc(c)
  {
    if readings != [] {
      assert (readings + [w])[1..] == readings[1..] + [w];
      SampledBitsSnoc(c, readings[1..], w);
    }
  }

  /**
   * `read` is what readparallel assembles from the level readings `samples`
   * (one GPLEV0 word per cycle): the bits of byte i, from the top, are the
   * levels of the data lines in its cycles, line d7 first.
   */
  predicate ReadsAs(c: Chip, samples: seq<seq<Word>>, read: seq<bv8>)
    requires WellFormed(c)
    requires forall k :: 0 <= k < Bpc(c) ==> c.pins[k] < 32
  {
    |read| == |samples|
    && forall i :: 0 <= i < |read| ==>
         |samples[i]| == 8 / Bpc(c) && Bits(read[i]) == SampledBits(c, samples[i])
  }

  /** `(value << 1) | level`: one sampled bit shifted into the bottom of a byte. */
  function ShiftInBit(v: bv8, x: bool): bv8
  {
    (v << 1) | (if x then 1 else 0)
  }

  /** The byte that shifting in `bits` one by one, from zero, builds. */
  function Pack(bits: seq<bool>): bv8
  {
    if bits == [] then 0 else ShiftInBit(Pack(bits[..|bits| - 1]), bits[|bits| - 1])
  }

  lemma PackSnoc(bits: seq<bool>, x: bool)
    ensures Pack(bits + [x]) == ShiftInBit(Pack(bits), x)
  {
    assert (bits + [x])[..|bits|] == bits;
  }

  /** Shifting a sampled bit into the bottom of `value`. */
  lemma ShiftIn(v: bv8, x: bool, q: nat)
    requires q < 8
    ensures q < 7 ==> BitAt(ShiftInBit(v, x), q) == BitAt(v, q + 1)
    ensures q == 7 ==> BitAt(ShiftInBit(v, x), q) == x
  {
  }

  /** After up to eight bits are shifted in, they are the low bits of the byte, in order. */
  lemma {:induction false} PackBit(bits: seq<bool>, m: nat)
    requires |bits| <= 8 && m < |bits|
    ensures BitAt(Pack(bits), 8 - |bits| + m) == bits[m]
  {
    var n := |bits|;
    var init := bits[..n - 1];
    ShiftIn(Pack(init), bits[n - 1], 8 - n + m);
    if m < n - 1 {
      PackBit(init, m);
    }
  }

  /** Eight bits shifted in give the byte with those bits. */
  lemma PackBits(bits: seq<bool>)
    requires |bits| == 8
    ensures Bits(Pack(bits)) == bits
  {
    forall m | 0 <= m < 8
      ensures Bits(Pack(bits))[m] == bits[m]
    {
      PackBit(bits, m);
    }
  }

  /** One more data line of a reading, as a sequence of levels. */
  lemma LineLevelsPrefix(c: Chip, w: Word, k: nat)
    requires WellFormed(c) && forall k :: 0 <= k < Bpc(c) ==> c.pins[k] < 32
    requires k < Bpc(c)
    ensures LineLevels(c, w)[..k + 1] == LineLevels(c, w)[..k] + [w[c.pins[k]]]
  {
  }

  /**
   * The innermost loop of readparallel: the levels of the data lines in one
   * reading of GPLEV0 shifted into `value`, d7 first.
   */
  method ShiftInCycle(c: Chip, value: bv8, readings: Word, ghost acc: seq<bool>) returns (r: bv8)
    requires WellFormed(c) && forall k :: 0 <= k < Bpc(c) ==> c.pins[k] < 32
    requires value == Pack(acc)
    ensures r == Pack(acc + LineLevels(c, readings))
  {
    var bpc := if D0(c) == UNDEFINED then 4 else 8;
    r := value;
    var k := 0;
    ghost var bits := acc;
    while k < bpc
      invariant 0 <= k <= bpc
      invariant bits == acc + LineLevels(c, readings)[..k]
      invariant r == Pack(bits)
    {
      PackSnoc(bits, readings[c.pins[k]]);
      r := ShiftInBit(r, readings[c.pins[k]]);
      LineLevelsPrefix(c, readings, k);
      bits := bits + [readings[c.pins[k]]];
      k := k + 1;
    }
    assert LineLevels(c, readings)[..bpc] == LineLevels(c, readings);
  }

  /** readparallel: `value = (value << 1) | level` over the cycles of each byte. */
  method ReadParallel(c: Chip, samples: seq<seq<Word>>) returns (read: seq<bv8>)
    requires WellFormed(c)
    requires forall k :: 0 <= k < Bpc(c) ==> c.pins[k] < 32
    requires forall i :: 0 <= i < |samples| ==> |samples[i]| == 8 / Bpc(c)
    ensures ReadsAs(c, samples, read)
  {
    var bpc := if D0(c) == UNDEFINED then 4 else 8;
    read := [];
    var i := 0;
    while i < |samples|
      invariant 0 <= i <= |samples|
      invariant |read| == i
      invariant forall i' :: 0 <= i' < i ==> Bits(read[i']) == SampledBits(c, samples[i'])
    {
      var value: bv8 := 0;
      var j := 8 / bpc;
      ghost var acc: seq<bool> := [];
      while j > 0
        invariant 0 <= j <= 8 / bpc
        invariant acc == SampledBits(c, samples[i][..8 / bpc - j])
        invariant |acc| + j * bpc == 8
        invariant value == Pack(acc)
      {
        var done := 8 / bpc - j;
        var readings := samples[i][done];
        SampledBitsSnoc(c, samples[i][..done], readings);
        assert samples[i][..done + 1] == samples[i][..done] + [readings];
        value := ShiftInCycle(c, value, readings, acc);
        acc := acc + LineLevels(c, readings);
        j := j - 1;
      }
      assert samples[i][..8 / bpc] == samples[i];
      PackBits(acc);
      read := read + [value];
      i := i + 1;
    }
  }

  /** The level readings of the lines a sequence of cycles drives high. */
  function Levels(cycles: seq<seq<Masks>>): (r: seq<seq<Word>>)
    ensures |r| == |cycles|
    ensures forall i :: 0 <= i < |cycles| ==> |r[i]| == |cycles[i]|
  {
    seq(|cycles|, i requires 0 <= i < |cycles| =>
      seq(|cycles[i]|, j requires 0 <= j < |cycles[i]| => cycles[i][j].high))
  }

  /** The data lines of a cycle sending bits from `start` read back as those bits. */
  lemma CycleReadsBack(c: Chip, b: bv8, start: nat)
    requires WellFormed(c) && DistinctLines(c) && start + Bpc(c) <= 8
    ensures LineLevels(c, CycleMasks(c, b, start, Bpc(c)).high) == Bits(b)[start..start + Bpc(c)]
  {
    forall q | 0 <= q < Bpc(c)
      ensures LineLevels(c, CycleMasks(c, b, start, Bpc(c)).high)[q] == Bits(b)[start + q]
    {
      MaskLine(c, b, start, Bpc(c), c.pins[q]);
    }
  }

  /** Reading back the levels that writeparallel drives for `data` gives `data`. */
  lemma RoundTrip(c: Chip, data: seq<bv8>, cycles: seq<seq<Masks>>, read: seq<bv8>)
    requires WellFormed(c) && DistinctLines(c)
    requires |cycles| == |data| && forall i :: 0 <= i < |data| ==> cycles[i] == ByteCycles(c, data[i])
    requires ReadsAs(c, Levels(cycles), read)
    ensures read == data
  {
    forall i | 0 <= i < |data|
      ensures read[i] == data[i]
    {
      var b := data[i];
      var lv := Levels(cycles)[i];
      if Bpc(c) == 8 {
        CycleReadsBack(c, b, 0);
        assert lv == [CycleMasks(c, b, 0, 8).high];
        assert SampledBits(c, lv) == LineLevels(c, lv[0]) + SampledBits(c, []);
        assert Bits(b)[0..8] == Bits(b);
      } else {
        CycleReadsBack(c, b, 0);
        CycleReadsBack(c, b, 4);
        assert lv == [CycleMasks(c, b, 0, 4).high, CycleMasks(c, b, 4, 4).high];
        assert lv[1..] == [lv[1]];
        assert SampledBits(c, lv) == LineLevels(c, lv[0]) + LineLevels(c, lv[1]) + SampledBits(c, []);
        assert Bits(b) == Bits(b)[0..4] + Bits(b)[4..8];
      }
      BitsDetermine(read[i], b);
    }
  }

  // ------------------------------------------------------ register select

  /**
   * The masks writedata (command = false) and writecommand (command = true)
   * prepare before writeparallel: RS/CD high for data with 6800 and low for
   * data with 8080, the opposite for commands.
   */
  function WriteSelect(c: Chip, command: bool): Masks
    requires WellFormed(c)
  {
    var rs := Bit(RsCd(c));
    if c.protocol == 6800 then (if command then Masks(Zero(), rs) else Masks(rs, Zero()))
    else if c.protocol == 8080 then (if command then Masks(rs, Zero()) else Masks(Zero(), rs))
    else Masks(Zero(), Zero())
  }

  /**
   * The masks readdata (command = false) and readregister (command = true)
   * store before the first read cycle, or None when rwrd is absent and the
   * call returns -1 without touching the bus.  For 6800 readparallel adds
   * the read/write line to the high mask.
   */
  function ReadSelect(c: Chip, command: bool): (r: Option<Masks>)
    requires WellFormed(c)
    ensures r.None? <==> RwRd(c) == UNDEFINED
  {
    if RwRd(c) == UNDEFINED then None
    else
      var m := WriteSelect(c, command);
      if c.protocol == 6800 then Some(Masks(Or(m.high, Bit(RwRd(c))), m.low)) else Some(m)
  }

  /**
   * RS/CD is high in data mode exactly for 6800 and low exactly for 8080,
   * commands use the opposite level, and reads use the level of the
   * matching writes.
   */
  lemma RegisterSelectLevels(c: Chip, command: bool)
    requires WellFormed(c) && RsCd(c) < 32
    requires c.protocol == 6800 || c.protocol == 8080
    ensures WriteSelect(c, false).high[RsCd(c)] <==> c.protocol == 6800
    ensures WriteSelect(c, false).low[RsCd(c)] <==> c.protocol == 8080
    ensures WriteSelect(c, true) == Masks(WriteSelect(c, false).low, WriteSelect(c, false).high)
    ensures ReadSelect(c, command).Some? ==>
      ReadSelect(c, command).value.low == WriteSelect(c, command).low
      && (RwRd(c) != RsCd(c) ==> ReadSelect(c, command).value.high[RsCd(c)] == WriteSelect(c, command).high[RsCd(c)])
  {
  }

  // ------------------------------------------------------ idle levels

  /** One store into a set or clear register: its offset in the block and the word written. */
  datatype Store = Store(register: nat, word: Word)

  /** Some store into `register` carries line g: the line is driven high (GPSET0) or low (GPCLR0). */
  predicate Drives(stores: seq<Store>, register: nat, g: nat)
  {
    exists i :: 0 <= i < |stores| && stores[i].register == register && g < 32 && stores[i].word[g]
  }

  /**
   * The stores initialise makes before setting the modes, in order: with
   * 6800 the read/write line (when present) and then the enable line are
   * cleared, with 8080 the read and write lines are set.
   */
  function IdleStores(c: Chip): seq<Store>
    requires WellFormed(c)
  {
    (if c.protocol == 6800 && RwRd(c) != UNDEFINED then [Store(GPCLR0, Bit(RwRd(c)))] else [])
    + (if c.protocol == 6800 then [Store(GPCLR0, Bit(EnWr(c)))] else [])
    + (if c.protocol == 8080 && RwRd(c) != UNDEFINED then [Store(GPSET0, Bit(RwRd(c)))] else [])
    + (if c.protocol == 8080 then [Store(GPSET0, Bit(EnWr(c)))] else [])
  }

  /**
   * The idle levels: a 6800 bus starts with the read/write and enable lines
   * low (write mode, no pulse), an 8080 bus with its read and write strobes
   * high (inactive); any other protocol drives nothing.
   */
  lemma IdleLevels(c: Chip, g: nat)
    requires WellFormed(c) && g < 32
    ensures Drives(IdleStores(c), GPCLR0, g) <==> c.protocol == 6800 && (g == EnWr(c) || g == RwRd(c))
    ensures Drives(IdleStores(c), GPSET0, g) <==> c.protocol == 8080 && (g == EnWr(c) || g == RwRd(c))
    ensures |IdleStores(c)| == if c.protocol != 6800 && c.protocol != 8080 then 0 else if RwRd(c) == UNDEFINED then 1 else 2
  {
    var s := IdleStores(c);
    var reg := if c.protocol == 6800 then GPCLR0 else GPSET0;
    if c.protocol == 6800 || c.protocol == 8080 {
      var k := if RwRd(c) == UNDEFINED then 0 else 1;
      assert s[k] == Store(reg, Bit(EnWr(c)));
      if g == EnWr(c) {
        assert s[k].word[g];
      }
      if g == RwRd(c) {
        assert s[0] == Store(reg, Bit(RwRd(c))) && s[0].word[g];
      }
    }
  }

  /** readregister: -1 when rwrd is absent, else the byte read in one transfer. */
  method ReadRegister(c: Chip, samples: seq<Word>) returns (r: int)
    requires WellFormed(c)
    requires forall k :: 0 <= k < Bpc(c) ==> c.pins[k] < 32
    requires |samples| == 8 / Bpc(c)
    ensures RwRd(c) == UNDEFINED ==> r == -1
    ensures RwRd(c) != UNDEFINED ==> 0 <= r < 256 && ReadsAs(c, [samples], [r as bv8])
  {
    if RwRd(c) == UNDEFINED {
      return -1;
    }
    var read := ReadParallel(c, [samples]);
    r := read[0] as int;
  }

  /** readdata: -1 when rwrd is absent and nothing is read, else 0 and the bytes read. */
  method ReadData(c: Chip, samples: seq<seq<Word>>) returns (status: int, read: seq<bv8>)
    requires WellFormed(c)
    requires forall k :: 0 <= k < Bpc(c) ==> c.pins[k] < 32
    requires forall i :: 0 <= i < |samples| ==> |samples[i]| == 8 / Bpc(c)
    ensures status == -1 <==> RwRd(c) == UNDEFINED
    ensures status == -1 ==> read == []
    ensures status != -1 ==> status == 0 && ReadsAs(c, samples, read)
  {
    if RwRd(c) == UNDEFINED {
      return -1, [];
    }
    read := ReadParallel(c, samples);
    status := 0;
  }

  // ------------------------------------------------------------ GPIO block

  /** The mapped GPIO register block (`gpioReg`), one Word per 32-bit register. */
  class Gpio {
    const reg: array<Word>
    /** Every store into a set or clear register, in order: those registers act on the lines when written. */
    var stores: seq<Store>

    constructor (size: nat)
      requires size > GPLEV0 + 1
      ensures reg.Length == size && fresh(reg) && stores == []
    {
      reg := new Word[size](_ => Zero());
      stores := [];
    }

    /** `*(gpioReg + register) = word` into a set or clear register. */
    method Put(register: nat, word: Word)
      requires register < reg.Length
      modifies this, reg
      ensures reg[..] == old(reg[..])[register := word]
      ensures stores == old(stores) + [Store(register, word)]
    {
      reg[register] := word;
      stores := stores + [Store(register, word)];
    }

    /**
     * initialise's idle levels, stored before the modes are set.  Only the
     * last store into each register stays in the block; `stores` keeps them all.
     */
    method SetIdleLevels(c: Chip)
      requires WellFormed(c) && GPCLR0 < reg.Length
      modifies this, reg
      ensures stores == old(stores) + IdleStores(c)
      ensures reg[..] ==
        if c.protocol == 6800 then old(reg[..])[GPCLR0 := Bit(EnWr(c))]
        else if c.protocol == 8080 then old(reg[..])[GPSET0 := Bit(EnWr(c))]
        else old(reg[..])
    {
      if c.protocol == 6800 && RwRd(c) != UNDEFINED {
        Put(GPCLR0, Bit(RwRd(c)));
      }
      if c.protocol == 6800 {
        Put(GPCLR0, Bit(EnWr(c)));
      }
      if c.protocol == 8080 && RwRd(c) != UNDEFINED {
        Put(GPSET0, Bit(RwRd(c)));
      }
      if c.protocol == 8080 {
        Put(GPSET0, Bit(EnWr(c)));
      }
    }

    /** gpioSetMode: replace the 3-bit field of `gpio` in its function-select word. */
    method SetMode(gpio: nat, mode: Word)
      requires gpio / 10 < reg.Length
      modifies reg
      ensures reg[..] == old(reg[..])[gpio / 10 := SetFunction(old(reg[gpio / 10]), gpio, mode)]
      ensures GetFunction(reg[gpio / 10], gpio) == And(mode, Seven())
    {
      GetAfterSet(reg[gpio / 10], gpio, mode, gpio);
      reg[gpio / 10] := SetFunction(reg[gpio / 10], gpio, mode);
    }

    /** gpioGetMode */
    function GetMode(gpio: nat): Word
      reads reg
      requires gpio / 10 < reg.Length
    {
      GetFunction(reg[gpio / 10], gpio)
    }

    /** gpioWrite: `1 << (gpio & 31)` into the clear register of bank gpio >> 5 for level 0, else the set register. */
    method Write(gpio: nat, level: nat)
      requires GPCLR0 + gpio / 32 < reg.Length
      modifies this, reg
      ensures reg[..] == old(reg[..])[(if level == 0 then GPCLR0 else GPSET0) + gpio / 32 := Bit(gpio % 32)]
      ensures stores == old(stores) + [Store((if level == 0 then GPCLR0 else GPSET0) + gpio / 32, Bit(gpio % 32))]
    {
      if level == 0 {
        Put(GPCLR0 + gpio / 32, Bit(gpio % 32));
      } else {
        Put(GPSET0 + gpio / 32, Bit(gpio % 32));
      }
    }
  }
}
