/**
 * The ST7920 graphic LCD driver (ST7920.py) for 128 x 64 screens: three
 * shadow registers resent whole after each change, the basic/extended
 * instruction-set checks, the dummy read after a write, the interleaved
 * DDRAM and GDRAM address maps, and the two character writers that fill
 * the 8 x 16 byte buffer `bufferc` row by row.
 *
 * The driver never refuses an operation: when an operation belongs to the
 * other instruction set it prints a complaint and sends the command anyway.
 * The mode, alignment, overflow and odd-length complaints are kept in
 * `printed`, without the operation's name; the backlight block's PWM
 * messages are not.  Text is a byte string (one byte per character), which
 * is what the writers hand to numpy.
 */
module ST7920 {
  import opened Bus
  import Backlight
  import Parallel
  import Layout

  // Basic instructions
  const CLEAR: bv8 := 0x01
  const HOME: bv8 := 0x02
  const ENTRY: bv8 := 0x04
  const DISPLAYSTATUS: bv8 := 0x08
  const SHIFT: bv8 := 0x10
  const FUNCTIONSET: bv8 := 0x20
  const CGRAMADDRESS: bv8 := 0x40
  const DDRAMADDRESS: bv8 := 0x80
  // Extended instructions
  const STANDBY: bv8 := 0x01
  const SCROLLRAM: bv8 := 0x02
  const REVERSE: bv8 := 0x04
  const IRAMADDRESS: bv8 := 0x40
  const GDRAMADDRESS: bv8 := 0x80

  // Flags
  const ENTRYRIGHT: bv8 := 0x02
  const ENTRYDISPLAY: bv8 := 0x01
  const DISPLAYON: bv8 := 0x04
  const CURSORON: bv8 := 0x02
  const BLINKON: bv8 := 0x01
  const SHIFTDISPLAY: bv8 := 0x08
  const SHIFTRIGHT: bv8 := 0x04
  const EIGHTBIT: bv8 := 0x10
  const EXTENDED: bv8 := 0x04
  const GRAPHICON: bv8 := 0x02
  const SCROLL: bv8 := 0x01

  const NEWLINE: bv8 := 0x0A
  const SPACE: bv8 := 0x20

  /** What the driver prints instead of failing. */
  datatype Complaint =
    | CalledInExtendedMode           // a basic-mode operation while bit 0x04 of functionset is set
    | CalledInBasicMode              // an extended-mode operation while it is clear
    | WrongAlignment
    | OverflowText(line: seq<bv8>)
    | OddLength

  /** The instruction set an operation belongs to. */
  datatype InstructionSet = Basic | Extended | Either

  predicate InExtended(functionset: bv8)
  {
    functionset & EXTENDED != 0
  }

  /** The complaint an operation of `which` prints in the mode functionset selects. */
  function ModeComplaint(functionset: bv8, which: InstructionSet): seq<Complaint>
  {
    if which == Basic && InExtended(functionset) then [CalledInExtendedMode]
    else if which == Extended && !InExtended(functionset) then [CalledInBasicMode]
    else []
  }

  // ------------------------------------------------------------- DDRAM map

  /** The DDRAM block that holds character row `row` (rows wrap modulo 8). */
  function Perm(row: int): (r: nat)
    ensures r < 8
  {
    [0, 2, 1, 3, 4, 6, 5, 7][row % 8]
  }

  /** `(((row & 4) >> 1) + (row & 1)) << 4) + ((row & 2) << 2) + col`, with `x & m` as Python computes it. */
  function CharAddress(col: int, row: int): int
  {
    16 * (2 * ((row / 4) % 2) + row % 2) + 8 * ((row / 2) % 2) + col
  }

  /** The command of setcharposition(col, row). The low byte of `0x80 | a` is `0x80 | (a mod 256)`. */
  function CharPositionCommand(col: int, row: int): bv8
  {
    DDRAMADDRESS | ToByte(CharAddress(col, row))
  }

  /** The bit arithmetic puts row r at block {0,2,1,3,4,6,5,7}[r mod 8], eight bytes per block. */
  lemma CharAddressIsPermuted(col: int, row: int)
    ensures CharAddress(col, row) == 8 * Perm(row) + col
    ensures CharPositionCommand(col, row) == CharPositionCommand(col, row % 8)
  {
    var r := row % 8;
    assert row == 8 * (row / 8) + r;
    assert (row / 4) % 2 == (r / 4) % 2 && (row / 2) % 2 == (r / 2) % 2 && row % 2 == r % 2 by {
      assert row / 4 == 2 * (row / 8) + r / 4;
      assert row / 2 == 4 * (row / 8) + r / 2;
    }
    assert r % 8 == r;
  }

  /** The block order is its own inverse. */
  lemma PermInvolution(row: int)
    requires 0 <= row < 8
    ensures Perm(Perm(row)) == row
  {
  }

  /** On the 8 x 8 character grid every position has its own command, all with the top bit set. */
  lemma CharPositionInjective(c1: int, r1: int, c2: int, r2: int)
    requires 0 <= c1 < 8 && 0 <= r1 < 8 && 0 <= c2 < 8 && 0 <= r2 < 8
    ensures 0 <= CharAddress(c1, r1) < 64
    ensures CharPositionCommand(c1, r1) == CharPositionCommand(c2, r2) <==> c1 == c2 && r1 == r2
  {
    CharAddressIsPermuted(c1, r1);
    CharAddressIsPermuted(c2, r2);
    if CharPositionCommand(c1, r1) == CharPositionCommand(c2, r2) {
      HighBitInjective(CharAddress(c1, r1), CharAddress(c2, r2));
      PermInvolution(r1);
      PermInvolution(r2);
    }
  }

  // ------------------------------------------------------------- GDRAM map

  /** The vertical address: `((y & 0x40) >> 1) + (y & 0x1F)`. */
  function GraphicVertical(y: int): int
  {
    32 * ((y / 64) % 2) + y % 32
  }

  /** The horizontal address: `((y & 0x20) >> 2) + x`. */
  function GraphicHorizontal(x: int, y: int): int
  {
    8 * ((y / 32) % 2) + x
  }

  /** The two commands of setgraphicposition(x, y). */
  function GraphicPositionCommands(x: int, y: int): seq<Event>
  {
    [Cmd(GDRAMADDRESS | ToByte(GraphicVertical(y))), Cmd(GDRAMADDRESS | ToByte(GraphicHorizontal(x, y)))]
  }

  /**
   * The 128 pixel rows of a 128 x 64 screen are the two halves of a 256 x 32
   * memory: for x < 8 and y < 128 the vertical address stays below 64 and
   * the horizontal one below 16, and distinct positions get distinct pairs.
   */
  lemma GraphicPositionInjective(x1: int, y1: int, x2: int, y2: int)
    requires 0 <= x1 < 8 && 0 <= y1 < 128 && 0 <= x2 < 8 && 0 <= y2 < 128
    ensures 0 <= GraphicVertical(y1) < 64 && 0 <= GraphicHorizontal(x1, y1) < 16
    ensures GraphicVertical(y1) == GraphicVertical(y2) && GraphicHorizontal(x1, y1) == GraphicHorizontal(x2, y2)
            <==> x1 == x2 && y1 == y2
  {
    RowBits(y1);
    RowBits(y2);
  }

  /** A row below 128 is made of its 64-bit, its 32-bit and its low five bits. */
  lemma RowBits(y: int)
    requires 0 <= y < 128
    ensures y == 64 * ((y / 64) % 2) + 32 * ((y / 32) % 2) + y % 32
    ensures 0 <= (y / 64) % 2 <= 1 && 0 <= (y / 32) % 2 <= 1 && 0 <= y % 32 < 32
  {
    if y < 32 {
      assert y / 64 == 0 && y / 32 == 0 && y % 32 == y;
    } else if y < 64 {
      assert y / 64 == 0 && y / 32 == 1 && y % 32 == y - 32;
    } else if y < 96 {
      assert y / 64 == 1 && y / 32 == 2 && y % 32 == y - 64;
    } else {
      assert y / 64 == 1 && y / 32 == 3 && y % 32 == y - 96;
    }
  }

  // ---------------------------------------------------------- the writers

  /** Characters per row: 16 for the 8 x 16 font, 8 for the 16 x 16 font. */
  function Room(full: bool): nat
  {
    if full then 8 else 16
  }

  /** The 16 x 16 font codes of a line: each character becomes the pair 0xA3, code. */
  function FullCodes(line: seq<bv8>): (r: seq<bv8>)
    ensures |r| == 2 * |line|
  {
    if line == [] then [] else [0xA3 as bv8, line[0]] + FullCodes(line[1..])
  }

  /** Character j of a line sits at byte 2j + 1 of its codes, after the 0xA3 at 2j. */
  lemma {:induction false} FullCodesAt(line: seq<bv8>, j: nat)
    requires j < |line|
    ensures FullCodes(line)[2 * j] == 0xA3 && FullCodes(line)[2 * j + 1] == line[j]
  {
    if j > 0 {
      FullCodesAt(line[1..], j - 1);
    }
  }

  /** Whether the alignment letter is one the writers know. */
  predicate KnownAlign(align: char)
  {
    align == 'l' || align == 'r' || align == 'c'
  }

  /**
   * The 16 bytes of buffer row for a line: spaces around the line (in pairs
   * for the 16 x 16 font), or the 16-byte window of an overflowing line.
   */
  function RowFor(line: seq<bv8>, align: char, full: bool): (r: seq<bv8>)
    requires KnownAlign(align)
    ensures |r| == 16
  {
    var m := Layout.AlignMargins(Room(full) - |line|, align).value;
    Layout.MarginsSameSign(Room(full) - |line|, align);
    if full then Layout.Place(FullCodes(line), 16, Layout.Margins(2 * m.left, 2 * m.right), SPACE)
    else Layout.Place(line, 16, m, SPACE)
  }

  /**
   * A fitting line of the 8 x 16 writer: `left` spaces, the line, then spaces
   * to 16 bytes; an overflowing one shows 16 consecutive bytes of itself.
   */
  lemma HalfRowLayout(line: seq<bv8>, align: char, k: nat)
    requires KnownAlign(align) && k < 16
    ensures var m := Layout.AlignMargins(16 - |line|, align).value;
      (|line| <= 16 ==>
         RowFor(line, align, false)[k] == if m.left <= k < m.left + |line| then line[k - m.left] else SPACE)
      && (|line| > 16 ==>
         0 <= -m.right && -m.right + 16 <= |line| && RowFor(line, align, false) == line[-m.right .. 16 - m.right])
  {
    var m := Layout.AlignMargins(16 - |line|, align).value;
    Layout.MarginsSameSign(16 - |line|, align);
    assert RowFor(line, align, false) == Layout.Place(line, 16, m, SPACE);
    if |line| <= 16 {
      Layout.PlaceFits(line, 16, m, SPACE, k);
    } else {
      Layout.PlaceOverflows(line, 16, m, SPACE);
    }
  }

  /**
   * A fitting line of the 16 x 16 writer: `2 * left` spaces, then for each
   * character the pair 0xA3, character, then spaces.
   */
  lemma FullRowFits(line: seq<bv8>, align: char, j: nat, k: nat)
    requires KnownAlign(align) && |line| <= 8 && j < |line| && k < 16
    ensures var left := Layout.AlignMargins(8 - |line|, align).value.left;
      RowFor(line, align, true)[2 * left + 2 * j] == 0xA3
      && RowFor(line, align, true)[2 * left + 2 * j + 1] == line[j]
      && (k < 2 * left || 2 * left + 2 * |line| <= k ==> RowFor(line, align, true)[k] == SPACE)
  {
    var m := Layout.AlignMargins(8 - |line|, align).value;
    Layout.MarginsSameSign(8 - |line|, align);
    var m2 := Layout.Margins(2 * m.left, 2 * m.right);
    var codes := FullCodes(line);
    var row := Layout.Place(codes, 16, m2, SPACE);
    assert RowFor(line, align, true) == row;
    FullCodesAt(line, j);
    Layout.PlaceFits(codes, 16, m2, SPACE, 2 * m.left + 2 * j);
    Layout.PlaceFits(codes, 16, m2, SPACE, 2 * m.left + 2 * j + 1);
    Layout.PlaceFits(codes, 16, m2, SPACE, k);
  }

  /** An overflowing line of the 16 x 16 writer shows 16 consecutive code bytes. */
  lemma FullRowOverflows(line: seq<bv8>, align: char)
    requires KnownAlign(align) && |line| > 8
    ensures var skip := -2 * Layout.AlignMargins(8 - |line|, align).value.right;
      0 <= skip && skip + 16 <= |FullCodes(line)| && RowFor(line, align, true) == FullCodes(line)[skip .. skip + 16]
  {
    var m := Layout.AlignMargins(8 - |line|, align).value;
    Layout.MarginsSameSign(8 - |line|, align);
    var m2 := Layout.Margins(2 * m.left, 2 * m.right);
    var codes := FullCodes(line);
    assert m2.left + m2.right + |codes| == 16;
    assert RowFor(line, align, true) == Layout.Place(codes, 16, m2, SPACE);
    Layout.PlaceOverflows(codes, 16, m2, SPACE);
  }

  /** For example "ab" centred in the 8 x 16 font: seven spaces, the line, seven spaces. */
  lemma HalfRowExample()
    ensures RowFor([0x61, 0x62], 'c', false) == Layout.Fill(SPACE, 7) + [0x61, 0x62] + Layout.Fill(SPACE, 7)
  {
  }

  /** The rows of buffer the first pass of a writer builds, one per line. */
  function MessageRows(lines: seq<seq<bv8>>, align: char, full: bool): (r: seq<seq<bv8>>)
    requires KnownAlign(align)
    ensures |r| == |lines|
    ensures forall i :: 0 <= i < |lines| ==> r[i] == RowFor(lines[i], align, full)
  {
    if lines == [] then []
    else
      var n := |lines| - 1;
      assert forall i :: 0 <= i < n ==> lines[..n][i] == lines[i];
      MessageRows(lines[..n], align, full) + [RowFor(lines[n], align, full)]
  }

  /** An overflow complaint for each line longer than a row. */
  function OverflowComplaints(lines: seq<seq<bv8>>, full: bool): seq<Complaint>
  {
    if lines == [] then []
    else OverflowComplaints(lines[..|lines| - 1], full)
         + (if |lines[|lines| - 1]| > Room(full) then [OverflowText(lines[|lines| - 1])] else [])
  }

  /**
   * What the first pass prints: for an unknown alignment the complaint and,
   * when the first line is too long, its overflow; otherwise the overflows
   * of the lines reached, which stops after the ninth line (the buffer has
   * eight rows).
   */
  function FirstPassComplaints(lines: seq<seq<bv8>>, align: char, full: bool): seq<Complaint>
    requires |lines| >= 1
  {
    if !KnownAlign(align) then
      [WrongAlignment] + (if |lines[0]| > Room(full) then [OverflowText(lines[0])] else [])
    else OverflowComplaints(lines[..if |lines| < 9 then |lines| else 9], full)
  }

  /** The second pass: for each row, the cursor command for line first+i and the 16 bytes. */
  function RowEvents(rows: seq<seq<bv8>>, first: int): (r: seq<Event>)
    ensures |r| == 2 * |rows|
    ensures forall i :: 0 <= i < |rows| ==>
      r[2 * i] == Cmd(CharPositionCommand(0, first + i)) && r[2 * i + 1] == Data(rows[i])
  {
    if rows == [] then []
    else
      var n := |rows| - 1;
      var prev := RowEvents(rows[..n], first);
      assert forall i :: 0 <= i < n ==> rows[..n][i] == rows[i];
      prev + [Cmd(CharPositionCommand(0, first + n)), Data(rows[n])]
  }

  /** The second pass's loop: for each row its position command and its bytes. */
  method RowTransfers(rows: seq<seq<bv8>>, first: int) returns (sent: seq<Event>)
    ensures sent == RowEvents(rows, first)
  {
    sent := [];
    var i := 0;
    while i < |rows|
      invariant 0 <= i <= |rows|
      invariant sent == RowEvents(rows[..i], first)
    {
      sent := sent + [Cmd(DDRAMADDRESS | ToByte(CharAddress(0, first + i))), Data(rows[i])];
      assert rows[..i + 1][..i] == rows[..i];
      i := i + 1;
    }
    assert rows[..i] == rows;
  }

  /** n copies of a complaint. */
  function Repeated(c: Complaint, n: nat): (r: seq<Complaint>)
    ensures |r| == n && forall k :: 0 <= k < n ==> r[k] == c
  {
    if n == 0 then [] else Repeated(c, n - 1) + [c]
  }

  /** The commands of the 4-bit start: n function sets of 0x20, each followed by a pause. */
  function FourBitSync(n: nat): (r: seq<Event>)
    ensures |r| == 2 * n
    ensures forall k :: 0 <= k < n ==> r[2 * k] == Cmd(0x20) && r[2 * k + 1] == Delay
  {
    if n == 0 then [] else FourBitSync(n - 1) + [Cmd(FUNCTIONSET & !EIGHTBIT), Delay]
  }

  /** The zero-filling of the 64 GDRAM lines from line n on: address, column 0, 32 zero bytes. */
  function ClearGraphicEvents(n: nat): (r: seq<Event>)
    requires n <= 64
    ensures |r| == 3 * n
  {
    if n == 0 then [] else ClearGraphicEvents(n - 1) + [Cmd(GDRAMADDRESS | ToByte(n - 1)), Cmd(GDRAMADDRESS), Data(Layout.Fill(0, 32))]
  }

  /**
   * cleargraphic writes each of the 64 GDRAM lines once, in order: line i
   * gets its address, column 0 and 32 zero bytes.
   */
  lemma {:induction false} ClearGraphicLayout(n: nat, i: nat)
    requires i < n <= 64
    ensures ClearGraphicEvents(n)[3 * i] == Cmd(GDRAMADDRESS | (i as bv8))
    ensures ClearGraphicEvents(n)[3 * i + 1] == Cmd(GDRAMADDRESS)
    ensures ClearGraphicEvents(n)[3 * i + 2] == Data(Layout.Fill(0, 32))
  {
    if i < n - 1 {
      ClearGraphicLayout(n - 1, i);
      assert ClearGraphicEvents(n)[..3 * (n - 1)] == ClearGraphicEvents(n - 1);
    } else {
      assert ToByte(i) == i as bv8;
    }
  }

  /** cleargraphic's loop over the 64 GDRAM lines. */
  method ClearGraphicTransfers() returns (sent: seq<Event>)
    ensures sent == ClearGraphicEvents(64)
  {
    var zeros := Layout.Fill(0, 32);
    sent := [];
    var i := 0;
    while i < 64
      invariant 0 <= i <= 64
      invariant sent == ClearGraphicEvents(i)
    {
      sent := sent + [Cmd(GDRAMADDRESS | ToByte(i)), Cmd(GDRAMADDRESS), Data(zeros)];
      i := i + 1;
    }
  }

  /** The host effects of the reset pulse on a usable reset line. */
  function ResetPulse(rst: int): seq<HostEffect>
  {
    if 0 <= rst <= 27 then [Write(rst, true), Settle, Write(rst, false), Settle, Write(rst, true), Settle] else []
  }

  /** The bus transfers of startup from the default shadows: 8-bit or 4-bit start, clear, display on. */
  function StartupEvents(d0: int, displaystatus: bv8): seq<Event>
  {
    SyncEvents(d0) + [Cmd(CLEAR), Delay, Cmd(DISPLAYSTATUS | Flag(displaystatus, DISPLAYON, true))]
  }

  /** The function sets that open startup: one 8-bit set, or thirty 4-bit ones. */
  function SyncEvents(d0: int): seq<Event>
  {
    if 0 <= d0 <= 27 then [Cmd(FUNCTIONSET | EIGHTBIT)] else FourBitSync(30)
  }

  // ---------------------------------------------------------------- driver

  class Lcd {
    const rst: int
    const d0: int
    const pwm: bool
    const bl: int
    const dev: Parallel.Chip
    /** The 8 x 16 character buffer the writers fill (numpy `bufferc`). */
    const bufferc: array2<bv8>
    var entry: bv8
    var displaystatus: bv8
    var functionset: bv8
    /** True after a write or a command: the next read starts with a dummy byte. */
    var write: bool
    var log: seq<Event>
    var host: seq<HostEffect>
    var printed: seq<Complaint>

    predicate Valid()
    {
      bufferc.Length0 == 8 && bufferc.Length1 == 16 && Backlight.Configured(bl, pwm) && Parallel.WellFormed(dev)
    }

    /** Row i of bufferc. */
    function Row(i: nat): (r: seq<bv8>)
      reads bufferc
      requires Valid() && i < 8
      ensures |r| == 16
    {
      seq(16, k requires 0 <= k < 16 reads bufferc => bufferc[i, k])
    }

    /**
     * The constructor: default shadows, bus set-up (protocol 6800), the
     * backlight block and level, zeroed buffers, startup.  `lines` are
     * d7..d0, rs, en, rw.
     */
    constructor (rst: int, lines: seq<int>, bl: int, backlight: real, pwm: bool,
                 pwmPresent: bool, chanPresent: bool)
      requires |lines| == 11
      ensures Valid() && fresh(bufferc)
      ensures this.rst == rst && d0 == lines[7] && this.pwm == pwm
      ensures dev == Parallel.Initialise(lines, 6800)
      ensures this.bl == Backlight.SetupPin(bl, pwm, pwmPresent)
      ensures host == Backlight.SetupEffects(bl, pwm, pwmPresent, chanPresent)
                      + Backlight.LevelEffects(this.bl, pwm, backlight) + ResetPulse(rst)
      ensures log == StartupEvents(lines[7], 0x00) && printed == []
      ensures entry == 0x02 && displaystatus == 0x04 && write
      ensures functionset == if 0 <= lines[7] <= 27 then 0x10 else 0x00
      ensures forall i :: 0 <= i < 8 ==> Row(i) == Layout.Fill(0, 16)
    {
      this.rst := rst;
      this.pwm := pwm;
      d0 := lines[7];
      entry := 0x02;
      displaystatus := 0x00;
      functionset := 0x10;
      write := true;
      dev := Parallel.Initialise(lines, 6800);
      this.bl := Backlight.SetupPin(bl, pwm, pwmPresent);
      Backlight.SetupKeepsChannel(bl, pwm, pwmPresent);
      host := Backlight.SetupEffects(bl, pwm, pwmPresent, chanPresent);
      log := [];
      printed := [];
      bufferc := new bv8[8, 16]((i, k) => 0);
      new;
      SetBacklight(backlight);
      Startup();
    }

    /** Print the complaint of an operation of `which` in the current mode. */
    method CheckMode(which: InstructionSet)
      modifies this`printed
      ensures printed == old(printed) + ModeComplaint(functionset, which)
    {
      if which == Basic && InExtended(functionset) {
        printed := printed + [CalledInExtendedMode];
      } else if which == Extended && !InExtended(functionset) {
        printed := printed + [CalledInBasicMode];
      }
    }

    /** writecommand followed by `_write = True`. */
    method Command(b: bv8)
      modifies this`log, this`write
      ensures log == old(log) + [Cmd(b)] && write
    {
      log := log + [Cmd(b)];
      write := true;
    }

    /**
     * startup: the reset pulse, then 0x30 on an 8-bit bus, or thirty 0x20
     * with functionset cleared on a 4-bit bus, then clear and display on.
     */
    method Startup()
      modifies this`host, this`log, this`printed, this`functionset, this`displaystatus, this`write
      ensures host == old(host) + ResetPulse(rst)
      ensures functionset == if 0 <= d0 <= 27 then old(functionset) else 0x00
      ensures displaystatus == Flag(old(displaystatus), DISPLAYON, true) && write
      ensures log == old(log) + StartupEvents(d0, old(displaystatus))
      ensures printed == old(printed) + ModeComplaint(functionset, Basic) + ModeComplaint(functionset, Basic)
    {
      if 0 <= rst <= 27 {
        host := host + [Write(rst, true), Settle, Write(rst, false), Settle, Write(rst, true), Settle];
      }
      Synchronise();
      ClearChar();
      DisplayOn(true);
    }

    /**
     * close: back to the basic instruction set, clear, display off.  Both
     * later steps are basic-mode operations and so never complain.
     */
    method Close()
      modifies this`functionset, this`displaystatus, this`log, this`printed, this`write
      ensures functionset == Flag(old(functionset), EXTENDED, false) && !InExtended(functionset)
      ensures displaystatus == Flag(old(displaystatus), DISPLAYON, false)
      ensures log == old(log) + [Cmd(FUNCTIONSET | functionset), Cmd(CLEAR), Delay, Cmd(DISPLAYSTATUS | displaystatus)]
      ensures printed == old(printed) && write
    {
      ExtendedOn(false);
      ClearChar();
      DisplayOn(false);
    }

    /** The opening function sets of startup; the 4-bit start clears functionset. */
    method Synchronise()
      modifies this`log, this`functionset
      ensures functionset == if 0 <= d0 <= 27 then old(functionset) else 0x00
      ensures log == old(log) + SyncEvents(d0)
    {
      if 0 <= d0 <= 27 {
        log := log + [Cmd(FUNCTIONSET | EIGHTBIT)];
      } else {
        functionset := 0x00;
        var sent := [];
        var i := 0;
        while i < 30
          invariant 0 <= i <= 30
          invariant sent == FourBitSync(i)
        {
          sent := sent + [Cmd(FUNCTIONSET & !EIGHTBIT), Delay];
          i := i + 1;
        }
        log := log + sent;
      }
    }

    /** clearchar: basic mode; clear, then a pause. */
    method ClearChar()
      modifies this`log, this`printed, this`write
      ensures printed == old(printed) + ModeComplaint(functionset, Basic)
      ensures log == old(log) + [Cmd(CLEAR), Delay] && write
    {
      CheckMode(Basic);
      Command(CLEAR);
      log := log + [Delay];
    }

    /** cleargraphic: extended mode; 32 zero bytes to each of the 64 GDRAM lines. */
    method ClearGraphic()
      modifies this`log, this`printed, this`write
      ensures printed == old(printed) + ModeComplaint(functionset, Extended)
      ensures log == old(log) + ClearGraphicEvents(64) && write
    {
      CheckMode(Extended);
      var sent := ClearGraphicTransfers();
      log := log + sent;
      write := true;
    }

    /** blinkon: only bit 0x01 of displaystatus changes; the register is resent. */
    method BlinkOn(value: bool)
      modifies this`displaystatus, this`log, this`printed, this`write
      ensures displaystatus == Flag(old(displaystatus), BLINKON, value)
      ensures printed == old(printed) + ModeComplaint(functionset, Basic)
      ensures log == old(log) + [Cmd(DISPLAYSTATUS | displaystatus)] && write
    {
      CheckMode(Basic);
      displaystatus := if value then displaystatus | BLINKON else displaystatus & !BLINKON;
      Command(DISPLAYSTATUS | displaystatus);
    }

    /** cursoron: only bit 0x02 of displaystatus changes. */
    method CursorOn(value: bool)
      modifies this`displaystatus, this`log, this`printed, this`write
      ensures displaystatus == Flag(old(displaystatus), CURSORON, value)
      ensures printed == old(printed) + ModeComplaint(functionset, Basic)
      ensures log == old(log) + [Cmd(DISPLAYSTATUS | displaystatus)] && write
    {
      CheckMode(Basic);
      displaystatus := if value then displaystatus | CURSORON else displaystatus & !CURSORON;
      Command(DISPLAYSTATUS | displaystatus);
    }

    /** displayon: only bit 0x04 of displaystatus changes. */
    method DisplayOn(value: bool)
      modifies this`displaystatus, this`log, this`printed, this`write
      ensures displaystatus == Flag(old(displaystatus), DISPLAYON, value)
      ensures printed == old(printed) + ModeComplaint(functionset, Basic)
      ensures log == old(log) + [Cmd(DISPLAYSTATUS | displaystatus)] && write
    {
      CheckMode(Basic);
      displaystatus := if value then displaystatus | DISPLAYON else displaystatus & !DISPLAYON;
      Command(DISPLAYSTATUS | displaystatus);
    }

    /** entrydisplay: only bit 0x01 of entry changes. */
    method EntryDisplay(value: bool)
      modifies this`entry, this`log, this`printed, this`write
      ensures entry == Flag(old(entry), ENTRYDISPLAY, value)
      ensures printed == old(printed) + ModeComplaint(functionset, Basic)
      ensures log == old(log) + [Cmd(ENTRY | entry)] && write
    {
      CheckMode(Basic);
      entry := if value then entry | ENTRYDISPLAY else entry & !ENTRYDISPLAY;
      Command(ENTRY | entry);
    }

    /** entryright: only bit 0x02 of entry changes. */
    method EntryRight(value: bool)
      modifies this`entry, this`log, this`printed, this`write
      ensures entry == Flag(old(entry), ENTRYRIGHT, value)
      ensures printed == old(printed) + ModeComplaint(functionset, Basic)
      ensures log == old(log) + [Cmd(ENTRY | entry)] && write
    {
      CheckMode(Basic);
      entry := if value then entry | ENTRYRIGHT else entry & !ENTRYRIGHT;
      Command(ENTRY | entry);
    }

    /** extendedon: the one operation that switches instruction sets; valid in both. */
    method ExtendedOn(value: bool)
      modifies this`functionset, this`log, this`write
      ensures functionset == Flag(old(functionset), EXTENDED, value)
      ensures InExtended(functionset) == value
      ensures log == old(log) + [Cmd(FUNCTIONSET | functionset)] && write
    {
      functionset := if value then functionset | EXTENDED else functionset & !EXTENDED;
      Command(FUNCTIONSET | functionset);
    }

    /** graphicon: extended mode (checked before the change); only bit 0x02 of functionset changes. */
    method GraphicOn(value: bool)
      modifies this`functionset, this`log, this`printed, this`write
      ensures functionset == Flag(old(functionset), GRAPHICON, value)
      ensures InExtended(functionset) == InExtended(old(functionset))
      ensures printed == old(printed) + ModeComplaint(old(functionset), Extended)
      ensures log == old(log) + [Cmd(FUNCTIONSET | functionset)] && write
    {
      CheckMode(Extended);
      functionset := if value then functionset | GRAPHICON else functionset & !GRAPHICON;
      Command(FUNCTIONSET | functionset);
    }

    /** scrollon: extended mode; 0x03 or 0x02. */
    method ScrollOn(value: bool)
      modifies this`log, this`printed, this`write
      ensures printed == old(printed) + ModeComplaint(functionset, Extended)
      ensures log == old(log) + [Cmd(if value then 0x03 else 0x02)] && write
    {
      CheckMode(Extended);
      Command(if value then SCROLLRAM | SCROLL else SCROLLRAM & !SCROLL);
    }

    /** setcharhome: basic mode; 0x02. */
    method SetCharHome()
      modifies this`log, this`printed, this`write
      ensures printed == old(printed) + ModeComplaint(functionset, Basic)
      ensures log == old(log) + [Cmd(HOME)] && write
    {
      CheckMode(Basic);
      Command(HOME);
    }

    /** setcharposition: basic mode; the DDRAM address of (col, row). */
    method SetCharPosition(col: int, row: int)
      modifies this`log, this`printed, this`write
      ensures printed == old(printed) + ModeComplaint(functionset, Basic)
      ensures log == old(log) + [Cmd(CharPositionCommand(col, row))] && write
    {
      CheckMode(Basic);
      Command(DDRAMADDRESS | ToByte(CharAddress(col, row)));
    }

    /** setcgposition: basic mode; 0x40 | value. */
    method SetCgPosition(value: int)
      modifies this`log, this`printed, this`write
      ensures printed == old(printed) + ModeComplaint(functionset, Basic)
      ensures log == old(log) + [Cmd(CGRAMADDRESS | ToByte(value))] && write
    {
      CheckMode(Basic);
      Command(CGRAMADDRESS | ToByte(value));
    }

    /** setiposition: extended mode; 0x40 | value. */
    method SetIPosition(value: int)
      modifies this`log, this`printed, this`write
      ensures printed == old(printed) + ModeComplaint(functionset, Extended)
      ensures log == old(log) + [Cmd(IRAMADDRESS | ToByte(value))] && write
    {
      CheckMode(Extended);
      Command(IRAMADDRESS | ToByte(value));
    }

    /** setgraphicposition: extended mode; vertical then horizontal address. */
    method SetGraphicPosition(x: int, y: int)
      modifies this`log, this`printed, this`write
      ensures printed == old(printed) + ModeComplaint(functionset, Extended)
      ensures log == old(log) + GraphicPositionCommands(x, y) && write
    {
      CheckMode(Extended);
      log := log + [Cmd(GDRAMADDRESS | ToByte(GraphicVertical(y)))];
      Command(GDRAMADDRESS | ToByte(GraphicHorizontal(x, y)));
    }

    /** shiftdisplayright: basic mode; 0x1C or 0x18. */
    method ShiftDisplayRight(value: bool)
      modifies this`log, this`printed, this`write
      ensures printed == old(printed) + ModeComplaint(functionset, Basic)
      ensures log == old(log) + [Cmd(if value then 0x1C else 0x18)] && write
    {
      CheckMode(Basic);
      Command(if value then SHIFT | SHIFTRIGHT | SHIFTDISPLAY else SHIFT | SHIFTDISPLAY);
    }

    /** shiftright: basic mode; 0x14 or 0x10. */
    method ShiftRight(value: bool)
      modifies this`log, this`printed, this`write
      ensures printed == old(printed) + ModeComplaint(functionset, Basic)
      ensures log == old(log) + [Cmd(if value then 0x14 else 0x10)] && write
    {
      CheckMode(Basic);
      Command(if value then SHIFT | SHIFTRIGHT else SHIFT);
    }

    /** standby: extended mode; 0x01. */
    method Standby()
      modifies this`log, this`printed, this`write
      ensures printed == old(printed) + ModeComplaint(functionset, Extended)
      ensures log == old(log) + [Cmd(STANDBY)] && write
    {
      CheckMode(Extended);
      Command(STANDBY);
    }

    /** togglereverse: extended mode; 0x04 | line. */
    method ToggleReverse(line: int)
      modifies this`log, this`printed, this`write
      ensures printed == old(printed) + ModeComplaint(functionset, Extended)
      ensures log == old(log) + [Cmd(REVERSE | ToByte(line))] && write
    {
      CheckMode(Extended);
      Command(REVERSE | ToByte(line));
    }

    /**
     * readdata: a one-byte dummy read first when the last transfer was a
     * write.  When rw is UNDEFINED both C calls return -1 without a
     * transfer; the write flag is cleared either way.
     */
    method ReadData(n: nat)
      requires Valid()
      modifies this`log, this`write
      ensures log == old(log) + (if Parallel.RwRd(dev) == Parallel.UNDEFINED then [] else (if old(write) then [Read(1)] else []) + [Read(n)])
      ensures !write
    {
      if Parallel.RwRd(dev) != Parallel.UNDEFINED {
        if write {
          log := log + [Read(1)];
        }
        log := log + [Read(n)];
      }
      write := false;
    }

    /** readstatus: nothing is transferred when rw is UNDEFINED. */
    method ReadStatus()
      requires Valid()
      modifies this`log
      ensures log == old(log) + (if Parallel.RwRd(dev) == Parallel.UNDEFINED then [] else [Status])
    {
      if Parallel.RwRd(dev) != Parallel.UNDEFINED {
        log := log + [Status];
      }
    }

    /** writedata: an odd length is reported, the data is sent anyway. */
    method WriteData(data: seq<bv8>)
      modifies this`log, this`printed, this`write
      ensures printed == old(printed) + (if |data| % 2 == 1 then [OddLength] else [])
      ensures log == old(log) + [Data(data)] && write
    {
      if |data| % 2 == 1 {
        printed := printed + [OddLength];
      }
      log := log + [Data(data)];
      write := true;
    }

    /** message_half: the 8 x 16 font writer. */
    method MessageHalf(text: seq<bv8>, align: char, first: int) returns (ok: bool)
      requires Valid()
      modifies this`log, this`printed, this`write, bufferc
      ensures var lines := Layout.Split(text, NEWLINE);
        ok == (KnownAlign(align) && |lines| <= 8)
        && printed == old(printed) + FirstPassComplaints(lines, align, false)
                      + (if ok && InExtended(functionset) then Repeated(CalledInExtendedMode, |lines|) else [])
        && log == old(log) + (if ok then RowEvents(MessageRows(lines, align, false), first) else [])
        && (ok ==> forall i :: 0 <= i < |lines| ==> Row(i) == RowFor(lines[i], align, false))
        && (ok ==> forall i :: |lines| <= i < 8 ==> Row(i) == old(Row(i)))
      ensures write == (ok || old(write))
    {
      ok := Message(text, align, first, false);
    }

    /** message_full: the 16 x 16 font writer, two bytes per character. */
    method MessageFull(text: seq<bv8>, align: char, first: int) returns (ok: bool)
      requires Valid()
      modifies this`log, this`printed, this`write, bufferc
      ensures var lines := Layout.Split(text, NEWLINE);
        ok == (KnownAlign(align) && |lines| <= 8)
        && printed == old(printed) + FirstPassComplaints(lines, align, true)
                      + (if ok && InExtended(functionset) then Repeated(CalledInExtendedMode, |lines|) else [])
        && log == old(log) + (if ok then RowEvents(MessageRows(lines, align, true), first) else [])
        && (ok ==> forall i :: 0 <= i < |lines| ==> Row(i) == RowFor(lines[i], align, true))
        && (ok ==> forall i :: |lines| <= i < 8 ==> Row(i) == old(Row(i)))
      ensures write == (ok || old(write))
    {
      ok := Message(text, align, first, true);
    }

    /**
     * The common shape of the two writers: a first pass fills one buffer row
     * per line (failing on an unknown alignment or a ninth line), a second
     * pass positions and sends each row.
     */
    method Message(text: seq<bv8>, align: char, first: int, full: bool) returns (ok: bool)
      requires Valid()
      modifies this`log, this`printed, this`write, bufferc
      ensures var lines := Layout.Split(text, NEWLINE);
        ok == (KnownAlign(align) && |lines| <= 8)
        && printed == old(printed) + FirstPassComplaints(lines, align, full)
                      + (if ok && InExtended(functionset) then Repeated(CalledInExtendedMode, |lines|) else [])
        && log == old(log) + (if ok then RowEvents(MessageRows(lines, align, full), first) else [])
        && (ok ==> forall i :: 0 <= i < |lines| ==> Row(i) == RowFor(lines[i], align, full))
        && (ok ==> forall i :: |lines| <= i < 8 ==> Row(i) == old(Row(i)))
      ensures write == (ok || old(write))
    {
      var lines := Layout.Split(text, NEWLINE);
      ok := FillRows(lines, align, full);
      if ok {
        SendRows(MessageRows(lines, align, full), first);
      }
    }

    /**
     * The first pass of a writer: one buffer row per line, in order.  An
     * unknown alignment fails on the first line, before any row is written;
     * a ninth line fails after the eight rows are filled.
     */
    method FillRows(lines: seq<seq<bv8>>, align: char, full: bool) returns (ok: bool)
      requires Valid() && |lines| >= 1
      modifies this`printed, bufferc
      ensures ok == (KnownAlign(align) && |lines| <= 8)
      ensures printed == old(printed) + FirstPassComplaints(lines, align, full)
      ensures ok ==> forall i :: 0 <= i < |lines| ==> Row(i) == RowFor(lines[i], align, full)
      ensures ok ==> forall i :: |lines| <= i < 8 ==> Row(i) == old(Row(i))
    {
      printed := printed + FirstPassComplaints(lines, align, full);
      if !KnownAlign(align) {
        return false;
      }
      var reached := if |lines| < 8 then |lines| else 8;
      var rows := MessageRows(lines[..reached], align, full);
      StoreRows(rows);
      ok := |lines| <= 8;
      if ok {
        assert lines[..reached] == lines;
      }
    }

    /** Copy rows into bufferc from row 0 on; the rows after them keep their bytes. */
    method StoreRows(rows: seq<seq<bv8>>)
      requires Valid() && |rows| <= 8
      requires forall i :: 0 <= i < |rows| ==> |rows[i]| == 16
      modifies bufferc
      ensures forall i :: 0 <= i < |rows| ==> Row(i) == rows[i]
      ensures forall i :: |rows| <= i < 8 ==> Row(i) == old(Row(i))
    {
      var i := 0;
      while i < |rows|
        invariant 0 <= i <= |rows|
        invariant forall r, k :: 0 <= r < i && 0 <= k < 16 ==> bufferc[r, k] == rows[r][k]
        invariant forall r, k :: i <= r < 8 && 0 <= k < 16 ==> bufferc[r, k] == old(bufferc[r, k])
      {
        var row := rows[i];
        forall k | 0 <= k < 16 {
          bufferc[i, k] := row[k];
        }
        i := i + 1;
      }
      forall r | 0 <= r < |rows|
        ensures Row(r) == rows[r]
      {
        assert forall k :: 0 <= k < 16 ==> Row(r)[k] == rows[r][k];
      }
      forall r | |rows| <= r < 8
        ensures Row(r) == old(Row(r))
      {
        assert forall k :: 0 <= k < 16 ==> Row(r)[k] == old(Row(r))[k];
      }
    }

    /**
     * The second pass of a writer: position each row on line first+i (a
     * basic-mode command) and send its 16 bytes.
     */
    method SendRows(rows: seq<seq<bv8>>, first: int)
      requires Valid() && |rows| <= 8
      requires forall i :: 0 <= i < |rows| ==> Row(i) == rows[i]
      modifies this`log, this`printed, this`write
      ensures log == old(log) + RowEvents(rows, first)
      ensures printed == old(printed) + (if InExtended(functionset) then Repeated(CalledInExtendedMode, |rows|) else [])
      ensures write == (|rows| > 0 || old(write))
    {
      var current := seq(|rows|, i requires 0 <= i < |rows| reads bufferc => Row(i));
      assert current == rows;
      var sent := RowTransfers(current, first);
      log := log + sent;
      printed := printed + (if InExtended(functionset) then Repeated(CalledInExtendedMode, |rows|) else []);
      write := write || |rows| > 0;
    }

    /** setbacklight */
    method SetBacklight(level: real)
      requires Valid()
      modifies this`host
      ensures host == old(host) + Backlight.LevelEffects(bl, pwm, level)
    {
      if Backlight.Usable(bl) {
        if !pwm {
          host := host + [Write(bl, level > 0.0)];
        } else {
          var chan := Backlight.PwmChannel(bl).value;
          if level > 0.0 {
            host := host + [PwmDuty(chan, Backlight.Duty(level)), PwmEnable(chan, true)];
          } else {
            host := host + [PwmEnable(chan, false)];
          }
        }
      }
    }
  }

  /**
   * Mode checks: every basic-set operation complains exactly in extended
   * mode, every extended-set operation exactly in basic mode, and after
   * extendedon(v) the mode is v whatever it was.
   */
  lemma ModeChecks(functionset: bv8, value: bool)
    ensures ModeComplaint(functionset, Basic) != [] <==> functionset & 0x04 != 0
    ensures ModeComplaint(functionset, Extended) != [] <==> functionset & 0x04 == 0
    ensures InExtended(Flag(functionset, EXTENDED, value)) == value
    ensures InExtended(Flag(functionset, GRAPHICON, value)) == InExtended(functionset)
  {
  }

  /**
   * A fresh driver's start: on an 8-bit bus the commands 0x30, 0x01, 0x0C;
   * on a 4-bit bus thirty 0x20 before 0x01 and 0x0C.
   */
  lemma StartupShape(d0: int)
    ensures 0 <= d0 <= 27 ==> StartupEvents(d0, 0x00) == [Cmd(0x30), Cmd(0x01), Delay, Cmd(0x0C)]
    ensures !(0 <= d0 <= 27) ==>
      |StartupEvents(d0, 0x00)| == 63
      && (forall k :: 0 <= k < 30 ==> StartupEvents(d0, 0x00)[2 * k] == Cmd(0x20))
      && StartupEvents(d0, 0x00)[60..] == [Cmd(0x01), Delay, Cmd(0x0C)]
  {
  }
}
