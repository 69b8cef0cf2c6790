/**
 * The abstract view of the hardware that all four drivers share.
 *
 * Every call a driver makes into the bus library (writecommand, writedata,
 * readdata on the parallel bus, or an SPI transfer with the A0 line set) is
 * one `Event` appended to an append-only log.  Pin and sysfs side effects that
 * do not travel over the LCD bus (backlight, reset line) are `HostEffect`s in
 * a second log.  Values pass through ctypes conversions, which this module
 * states explicitly: `c_ubyte` keeps a Python int modulo 256, `c_uint16` and
 * `c_uint64` keep it modulo 2^16 and 2^64 and lay the bytes out in the
 * requested byte order.
 */
module Bus {

  datatype Option<T> = None | Some(value: T)

  /** One transfer on the LCD bus. */
  datatype Event =
    | Cmd(b: bv8)             // one byte with the register-select line in command mode
    | Cmds(bytes: seq<bv8>)   // a block of command bytes in one SPI transfer (A0 low)
    | Data(bytes: seq<bv8>)   // a block of bytes in data mode
    | Read(n: nat)            // n bytes clocked in from the controller
    | Status                  // one status byte read in command mode (readregister)
    | Delay                   // a pause between transfers (time.sleep)

  /** A side effect on the host that bypasses the LCD bus. */
  datatype HostEffect =
    | SetMode(pin: int, mode: int)    // gpioSetMode
    | Write(pin: int, high: bool)     // gpioWrite
    | PwmExport(chan: nat)            // writing the channel number to .../export
    | PwmPeriod(chan: nat, ns: int)   // writing .../pwmN/period
    | PwmDuty(chan: nat, ns: int)     // writing .../pwmN/duty_cycle
    | PwmEnable(chan: nat, on: bool)  // writing .../pwmN/enable
    | Settle                          // a pause on the host side

  /** A Python int converted to a ctypes unsigned byte: the value modulo 256. */
  function ToByte(x: int): (b: bv8)
    ensures b as int == x % 256
  {
    ByteValue(x % 256);
    (x % 256) as bv8
  }

  /** A number below 256 survives the conversion to a byte and back. */
  lemma ByteValue(v: int)
    requires 0 <= v < 256
    ensures (v as bv8) as int == v
  {
  }

  /** Python's character code of `c` handed to a `c_ubyte`. */
  function CharByte(c: char): bv8
  {
    ToByte(c as int)
  }

  /** Python's `s[i]` including negative indices; `None` where Python raises IndexError. */
  function PyIndex<T>(s: seq<T>, i: int): (r: Option<T>)
    ensures r.Some? <==> -|s| <= i < |s|
    ensures 0 <= i < |s| ==> r == Some(s[i])
    ensures -|s| <= i < 0 ==> r == Some(s[|s| + i])
  {
    if 0 <= i < |s| then Some(s[i])
    else if -|s| <= i < 0 then Some(s[|s| + i])
    else None
  }

  /** Python's `a % b` for `b != 0`: the result has the sign of `b`. */
  function PyMod(a: int, b: int): (r: int)
    requires b != 0
    ensures b > 0 ==> 0 <= r < b
    ensures b < 0 ==> b < r <= 0
  {
    if b > 0 then a % b else -((-a) % (-b))
  }

  /** Python's `a // b` for `b > 0` (floor division). */
  function PyFloorDiv(a: int, b: int): (r: int)
    requires b > 0
    ensures r * b <= a < r * b + b
  {
    a / b
  }

  /** One flag bit of a shadow register switched on or off (`|= mask` / `&= ~mask`). */
  function Flag(b: bv8, mask: bv8, on: bool): (r: bv8)
    ensures r & !mask == b & !mask
    ensures r & mask == if on then mask else 0
  {
    if on then b | mask else b & !mask
  }

  /** The bytes of a ctypes little-endian `c_uint16` element. */
  function Le16(v: int): (r: seq<bv8>)
    ensures |r| == 2
  {
    [ToByte(v), ToByte(v / 256)]
  }

  /** The value that two little-endian bytes encode. */
  function FromLe16(r: seq<bv8>): nat
    requires |r| == 2
  {
    r[0] as int + 256 * r[1] as int
  }

  /** Decoding the two bytes of a 16-bit parameter returns the parameter modulo 2^16. */
  lemma Le16RoundTrip(v: int)
    ensures FromLe16(Le16(v)) == v % 0x1_0000
  {
    var q, lo := v / 256, v % 256;
    var hi := q % 256;
    assert v == 256 * q + lo;
    assert q == 256 * (q / 256) + hi;
    assert v == 65536 * (q / 256) + (256 * hi + lo);
    assert 0 <= 256 * hi + lo < 65536;
  }

  /** `n` bytes of `v`, most significant first: a ctypes big-endian integer of n bytes. */
  function Be(v: int, n: nat): (r: seq<bv8>)
    ensures |r| == n
    decreases n
  {
    if n == 0 then [] else Be(v / 256, n - 1) + [ToByte(v)]
  }

  /** The value that big-endian bytes encode. */
  function FromBe(r: seq<bv8>): nat
  {
    if r == [] then 0 else 256 * FromBe(r[..|r| - 1]) + r[|r| - 1] as int
  }

  function Pow256(n: nat): (p: nat)
    ensures p > 0
  {
    if n == 0 then 1 else 256 * Pow256(n - 1)
  }

  /** A value that fits in `n` bytes is recovered from its big-endian bytes. */
  lemma {:induction false} BeRoundTrip(v: int, n: nat)
    requires 0 <= v < Pow256(n)
    ensures FromBe(Be(v, n)) == v
  {
    if n > 0 {
      var r := Be(v, n);
      assert r[..n - 1] == Be(v / 256, n - 1);
      BeRoundTrip(v / 256, n - 1);
    }
  }

  /** The bytes of a ctypes big-endian `c_uint64`. */
  function Be64(v: int): (r: seq<bv8>)
    ensures |r| == 8
  {
    Be(v, 8)
  }

  /** Two addresses below 0x80 with the top bit set are equal only if the addresses are. */
  lemma HighBitInjective(a1: int, a2: int)
    requires 0 <= a1 < 0x80 && 0 <= a2 < 0x80
    requires (0x80 | ToByte(a1)) == (0x80 | ToByte(a2))
    ensures a1 == a2
  {
    SmallByte(a1);
    SmallByte(a2);
    TopBitInjective(ToByte(a1), ToByte(a2));
    assert a1 % 256 == a2 % 256;
  }

  /** An address below 0x80 converts to a byte whose top bit is clear. */
  lemma SmallByte(a: int)
    requires 0 <= a < 0x80
    ensures ToByte(a) < 0x80
  {
    assert a % 256 == a;
    assert ToByte(a) == a as bv8;
  }

  /** Setting the top bit of two bytes below 0x80 keeps them apart. */
  lemma TopBitInjective(x1: bv8, x2: bv8)
    requires x1 < 0x80 && x2 < 0x80
    requires (0x80 | x1) == (0x80 | x2)
    ensures x1 == x2
  {
    assert (0x80 | x1) & 0x7F == x1;
    assert (0x80 | x2) & 0x7F == x2;
  }

  // ------------------------------------------------ Python's int `|`

  function Abs(x: int): nat
  {
    if x < 0 then -x else x
  }

  /**
   * Python's `a | b` on unbounded integers in two's complement: the bits
   * are combined from the least significant up, a negative number having
   * infinitely many leading ones.
   */
  function IntOr(a: int, b: int): int
    decreases Abs(a) + Abs(b)
  {
    if a == 0 then b
    else if b == 0 then a
    else if a == -1 || b == -1 then -1
    else 2 * IntOr(a / 2, b / 2) + (if a % 2 == 1 || b % 2 == 1 then 1 else 0)
  }

  function Pow2(n: nat): (r: nat)
    ensures r >= 1
  {
    if n == 0 then 1 else 2 * Pow2(n - 1)
  }

  /** OR of two non-negative numbers is non-negative and at least each of them. */
  lemma {:induction false} IntOrNonNegative(a: int, b: int)
    requires a >= 0 && b >= 0
    ensures IntOr(a, b) >= a && IntOr(a, b) >= b
    decreases a + b
  {
    if a != 0 && b != 0 {
      IntOrNonNegative(a / 2, b / 2);
    }
  }

  /** OR with -1 (all bits set) is -1. */
  lemma IntOrAllOnes(a: int)
    ensures IntOr(a, -1) == -1 && IntOr(-1, a) == -1
  {
  }

  /** With no bit in common, because a is q times 2^n and b below 2^n, OR is addition. */
  lemma {:induction false} IntOrDisjoint(q: nat, b: int, n: nat)
    requires 0 <= b < Pow2(n)
    ensures IntOr(Pow2(n) * q, b) == Pow2(n) * q + b
  {
    var a := Pow2(n) * q;
    if a != 0 && b != 0 {
      assert n > 0;
      var m := Pow2(n - 1) * q;
      assert a == 2 * m;
      assert a / 2 == m && a % 2 == 0;
      IntOrDisjoint(q, b / 2, n - 1);
    }
  }

  /** The quotient and remainder of 256 * y + x by 256. */
  lemma DivModByte(v: int, x: int, y: int)
    requires 0 <= x < 256 && v == 256 * y + x
    ensures v % 256 == x && v / 256 == y
  {
    var q, r := v / 256, v % 256;
    assert 256 * (q - y) == x - r;
  }

  /** A number below 256 is its own byte. */
  lemma ByteOf(x: int)
    requires 0 <= x < 256
    ensures ToByte(x) as int == x
  {
  }
}
