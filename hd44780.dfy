/**
 * The HD44780 character LCD driver (HD44780.py): the command encoders with
 * their two shadow registers, the cursor address map, custom glyphs, the
 * CR/LF message writer and the backlight.
 *
 * The controller cannot report its display-control and entry-mode registers,
 * so the driver keeps copies (`displaycontrol`, `entrymodeset`) and resends
 * the whole register after changing one flag.  Every bus call is an event
 * appended to `log`; host-side backlight effects go to `host`.
 */
module HD44780 {
  import opened Bus
  import Backlight
  import Parallel

  // Commands
  const CLEARDISPLAY: bv8 := 0x01
  const RETURNHOME: bv8 := 0x02
  const ENTRYMODESET: bv8 := 0x04
  const DISPLAYCONTROL: bv8 := 0x08
  const CURSORDISPLAYSHIFT: bv8 := 0x10
  const FUNCTIONSET: bv8 := 0x20
  const SETCGRAMADDR: bv8 := 0x40
  const SETDDRAMADDR: bv8 := 0x80

  // Entry-mode flags
  const ENTRYSHIFT: bv8 := 0x01
  const ENTRYRIGHT: bv8 := 0x02

  // Display-control flags
  const DISPLAYON: bv8 := 0x04
  const CURSORON: bv8 := 0x02
  const BLINKON: bv8 := 0x01

  // Cursor/display shift flags
  const DISPLAYMOVE: bv8 := 0x08
  const CURSORMOVE: bv8 := 0x00
  const MOVERIGHT: bv8 := 0x04

  // Function-set flags
  const EIGHTBITMODE: bv8 := 0x10
  const FOURBITMODE: bv8 := 0x00
  const TWOLINE: bv8 := 0x08
  const DOTS5X8: bv8 := 0x00

  /** The DDRAM address of column 0 of each of up to four rows. */
  function RowOffsets(): seq<int> { [0x00, 0x40, 0x20, 0x60] }

  // ------------------------------------------------------------ startup

  /** The display-control and entry-mode values startup chooses: display on, no cursor, left to right. */
  function StartDisplayControl(): bv8 { DISPLAYON & !CURSORON & !BLINKON }
  function StartEntryMode(): bv8 { ENTRYRIGHT & !ENTRYSHIFT }

  /**
   * The transfers of startup: two commands whose nibbles force 8-bit mode
   * and then 4-bit mode whatever the controller's state, the function set,
   * the two shadow registers, and clear with its pause.
   */
  function StartupEvents(): seq<Event>
  {
    [ Cmd(FUNCTIONSET | EIGHTBITMODE | ((FUNCTIONSET | EIGHTBITMODE) >> 4)),
      Cmd(FUNCTIONSET | EIGHTBITMODE | ((FUNCTIONSET | FOURBITMODE) >> 4)),
      Cmd(FUNCTIONSET | FOURBITMODE | TWOLINE | DOTS5X8),
      Cmd(DISPLAYCONTROL | StartDisplayControl()),
      Cmd(ENTRYMODESET | StartEntryMode()),
      Cmd(CLEARDISPLAY), Delay ]
  }

  /** Startup sends 0x33, 0x32, 0x28, 0x0C, 0x06, 0x01 and leaves the shadows at 0x04 and 0x02. */
  lemma StartupCommands()
    ensures StartupEvents() == [Cmd(0x33), Cmd(0x32), Cmd(0x28), Cmd(0x0C), Cmd(0x06), Cmd(0x01), Delay]
    ensures StartDisplayControl() == 0x04 && StartEntryMode() == 0x02
  {
  }

  /** The value of four bits, the first the most significant. */
  function Nibble(bits: seq<bool>): nat
    requires |bits| == 4
  {
    (if bits[0] then 8 else 0) + (if bits[1] then 4 else 0) + (if bits[2] then 2 else 0) + (if bits[3] then 1 else 0)
  }

  /** The nibble a 4-bit bus cycle carries on d7..d4. */
  function CycleNibble(c: Parallel.Chip, m: Parallel.Masks): nat
    requires Parallel.WellFormed(c) && Parallel.Bpc(c) == 4
    requires forall k :: 0 <= k < 4 ==> c.pins[k] < 32
  {
    Nibble(Parallel.LineLevels(c, m.high))
  }

  /**
   * Over a 4-bit bus the first two startup commands reach the controller
   * as the nibbles 3, 3, 3, 2: three 8-bit function sets, which work in
   * whatever mode the controller is in, and one 4-bit function set.
   */
  lemma StartupNibbles(c: Parallel.Chip)
    requires Parallel.WellFormed(c) && Parallel.DistinctLines(c) && Parallel.Bpc(c) == 4
    ensures Parallel.ByteCycles(c, StartupEvents()[0].b) + Parallel.ByteCycles(c, StartupEvents()[1].b)
            == [Parallel.CycleMasks(c, 0x33, 0, 4), Parallel.CycleMasks(c, 0x33, 4, 4),
                Parallel.CycleMasks(c, 0x32, 0, 4), Parallel.CycleMasks(c, 0x32, 4, 4)]
    ensures CycleNibble(c, Parallel.CycleMasks(c, 0x33, 0, 4)) == 3
    ensures CycleNibble(c, Parallel.CycleMasks(c, 0x33, 4, 4)) == 3
    ensures CycleNibble(c, Parallel.CycleMasks(c, 0x32, 0, 4)) == 3
    ensures CycleNibble(c, Parallel.CycleMasks(c, 0x32, 4, 4)) == 2
  {
    StartupCommands();
    Parallel.CycleReadsBack(c, 0x33, 0);
    Parallel.CycleReadsBack(c, 0x33, 4);
    Parallel.CycleReadsBack(c, 0x32, 0);
    Parallel.CycleReadsBack(c, 0x32, 4);
    assert Parallel.Bits(0x33)[0..4] == [false, false, true, true];
    assert Parallel.Bits(0x33)[4..8] == [false, false, true, true];
    assert Parallel.Bits(0x32)[0..4] == [false, false, true, true];
    assert Parallel.Bits(0x32)[4..8] == [false, false, true, false];
  }

  // ------------------------------------------------------------ cursor

  /** The row set_cursor uses: reduced modulo rows when row >= rows; None where Python divides by zero. */
  function CursorRow(row: int, rows: int): (r: Option<int>)
    ensures r.None? <==> row >= rows && rows == 0
    ensures r.Some? && row >= rows ==> r.value == PyMod(row, rows)
    ensures row < rows ==> r == Some(row)
  {
    if row >= rows then (if rows == 0 then None else Some(PyMod(row, rows))) else Some(row)
  }

  /**
   * The command byte of set_cursor(col, row): SETDDRAMADDR | (col + offset),
   * converted to a byte (the low byte of 0x80 | x is 0x80 | (x mod 256)).
   * None where Python raises: division by zero, or a row that indexes past
   * the offset table.
   */
  function SetCursorCommand(col: int, row: int, rows: int): (r: Option<bv8>)
    ensures r.Some? <==> CursorRow(row, rows).Some? && -4 <= CursorRow(row, rows).value < 4
    ensures r.Some? ==> r.value & 0x80 == 0x80
  {
    match CursorRow(row, rows)
    case None => None
    case Some(rw) =>
      match PyIndex(RowOffsets(), rw)
      case None => None
      case Some(off) => Some(SETDDRAMADDR | ToByte(col + off))
  }

  /** A row at or beyond the last one wraps around: set_cursor(c, r) is set_cursor(c, r mod rows). */
  lemma SetCursorWraps(col: int, row: int, rows: int)
    requires rows > 0 && row >= 0
    ensures SetCursorCommand(col, row, rows) == SetCursorCommand(col, row % rows, rows)
  {
    var r := row % rows;
    assert 0 <= r < rows;
    if row < rows {
      assert r == row;
    } else {
      assert PyMod(row, rows) == r;
    }
    assert CursorRow(row, rows) == Some(r) == CursorRow(r, rows);
  }

  /** The command for a row of the table: the address of the column in that row with the top bit set. */
  lemma SetCursorInRange(col: int, row: int, rows: int)
    requires 0 <= row < rows && row < 4
    ensures SetCursorCommand(col, row, rows) == Some(0x80 | ToByte(col + RowOffsets()[row]))
  {
    assert CursorRow(row, rows) == Some(row);
    assert PyIndex(RowOffsets(), row) == Some(RowOffsets()[row]);
  }

  /**
   * On a display of at most four rows and 32 columns every position has its
   * own DDRAM address: row 0 at 0x00, row 1 at 0x40, row 2 at 0x20, row 3 at 0x60.
   */
  lemma SetCursorInjective(c1: int, r1: int, c2: int, r2: int, rows: int)
    requires 0 < rows <= 4 && 0 <= r1 < rows && 0 <= r2 < rows
    requires 0 <= c1 < 0x20 && 0 <= c2 < 0x20
    ensures SetCursorCommand(c1, r1, rows) == SetCursorCommand(c2, r2, rows) <==> c1 == c2 && r1 == r2
  {
    var a1, a2 := c1 + RowOffsets()[r1], c2 + RowOffsets()[r2];
    SetCursorInRange(c1, r1, rows);
    SetCursorInRange(c2, r2, rows);
    if (0x80 | ToByte(a1)) == (0x80 | ToByte(a2)) {
      HighBitInjective(a1, a2);
      OffsetsApart(c1, r1, c2, r2);
    }
  }

  /** The four row offsets are 0x20 apart, so a column below 0x20 never reaches the next row. */
  lemma OffsetsApart(c1: int, r1: int, c2: int, r2: int)
    requires 0 <= r1 < 4 && 0 <= r2 < 4
    requires 0 <= c1 < 0x20 && 0 <= c2 < 0x20
    requires c1 + RowOffsets()[r1] == c2 + RowOffsets()[r2]
    ensures c1 == c2 && r1 == r2
  {
    var o1, o2 := RowOffsets()[r1], RowOffsets()[r2];
    assert o1 == 0x00 || o1 == 0x20 || o1 == 0x40 || o1 == 0x60;
    assert o2 == 0x00 || o2 == 0x20 || o2 == 0x40 || o2 == 0x60;
  }

  // ----------------------------------------------------- custom glyphs

  /** definechars' command: the slot is location & 7, so locations eight apart share a slot. */
  function CgramCommand(location: int): (r: bv8)
    ensures r & 0xC7 == SETCGRAMADDR
    ensures (r >> 3) & 7 == (location % 8) as bv8
  {
    SETCGRAMADDR | ((location % 8) as bv8 << 3)
  }

  /** Slot arithmetic wraps modulo eight (9 and 1 give the same command) and separates slots 0..7. */
  lemma CgramSlotsWrap(location: int, other: int)
    ensures CgramCommand(location) == CgramCommand(location + 8)
    ensures CgramCommand(location) == CgramCommand(other) <==> location % 8 == other % 8
    ensures CgramCommand(9) == CgramCommand(1) == 0x48
  {
    var r1, r2 := CgramCommand(location), CgramCommand(other);
    if r1 == r2 {
      assert (location % 8) as bv8 == (r1 >> 3) & 7 == (other % 8) as bv8;
    }
  }

  /** The data blocks of definechars: each 64-bit glyph as 8 bytes, most significant first. */
  function GlyphBlocks(chars: seq<int>): (r: seq<Event>)
    ensures |r| == |chars|
    ensures forall k :: 0 <= k < |chars| ==> r[k] == Data(Be64(chars[k]))
  {
    if chars == [] then [] else GlyphBlocks(chars[..|chars| - 1]) + [Data(Be64(chars[|chars| - 1]))]
  }

  /** Each glyph row pattern below 2^64 is recovered from its block. */
  lemma GlyphBlocksRoundTrip(chars: seq<int>, k: nat)
    requires k < |chars| && 0 <= chars[k] < Pow256(8)
    ensures FromBe(GlyphBlocks(chars)[k].bytes) == chars[k]
  {
    BeRoundTrip(chars[k], 8);
  }

  // ------------------------------------------------------------ message

  /** The result of a writer: the transfers made, and false where Python raised and stopped. */
  datatype Outcome = Outcome(events: seq<Event>, ok: bool)

  function Prepend(e: Event, o: Outcome): Outcome
  {
    Outcome([e] + o.events, o.ok)
  }

  /** The column a new line starts in: 0 when writing left to right, else the last column. */
  function NewlineColumn(entry: bv8, cols: int): int
  {
    if entry & ENTRYRIGHT != 0 then 0 else cols - 1
  }

  /**
   * What the message loop does from index i with `row` rows started:
   * a '\n' right after '\r' is skipped; a '\r' right before '\n' moves the
   * cursor to the start of the next row; any other character is one data
   * byte.  A '\r' in the last position fails (text[i+1] is read before the
   * bound is checked).  With `unpacked` the character write fails as
   * written in the source (see the findings); without it the character's
   * code is written as one byte.
   */
  function MessageFrom(text: string, i: nat, row: int, cols: int, rows: int, entry: bv8, unpacked: bool): Outcome
    requires i <= |text|
    decreases |text| - i
  {
    if i == |text| then Outcome([], true)
    else if text[i] == '\n' && i > 0 && text[i - 1] == '\r' then
      MessageFrom(text, i + 1, row, cols, rows, entry, unpacked)
    else if text[i] == '\r' && i + 1 == |text| then Outcome([], false)
    else if text[i] == '\r' && text[i + 1] == '\n' then
      match SetCursorCommand(NewlineColumn(entry, cols), row + 1, rows)
      case None => Outcome([], false)
      case Some(b) => Prepend(Cmd(b), MessageFrom(text, i + 1, row + 1, cols, rows, entry, unpacked))
    else if unpacked then Outcome([], false)
    else Prepend(Data([CharByte(text[i])]), MessageFrom(text, i + 1, row, cols, rows, entry, unpacked))
  }

  /** One unfolding of MessageFrom at a character that is not the end of the text. */
  lemma MessageFromStep(text: string, i: nat, row: int, cols: int, rows: int, entry: bv8)
    requires i < |text|
    ensures var here := MessageFrom(text, i, row, cols, rows, entry, false);
      if text[i] == '\n' && i > 0 && text[i - 1] == '\r' then
        here == MessageFrom(text, i + 1, row, cols, rows, entry, false)
      else if text[i] == '\r' && i + 1 == |text| then here == Outcome([], false)
      else if text[i] == '\r' && text[i + 1] == '\n' then
        var c := SetCursorCommand(NewlineColumn(entry, cols), row + 1, rows);
        here == if c.None? then Outcome([], false)
                else Prepend(Cmd(c.value), MessageFrom(text, i + 1, row + 1, cols, rows, entry, false))
      else here == Prepend(Data([CharByte(text[i])]), MessageFrom(text, i + 1, row, cols, rows, entry, false))
  {
  }

  /** The number of CR LF pairs from index i on. */
  function CrLfPairs(text: string, i: nat): nat
    requires i <= |text|
    decreases |text| - i
  {
    if i + 1 >= |text| then 0
    else (if text[i] == '\r' && text[i + 1] == '\n' then 1 else 0) + CrLfPairs(text, i + 1)
  }

  function DataCount(events: seq<Event>): nat
  {
    if events == [] then 0 else (if events[0].Data? then 1 else 0) + DataCount(events[1..])
  }

  function CmdCount(events: seq<Event>): nat
  {
    if events == [] then 0 else (if events[0].Cmd? then 1 else 0) + CmdCount(events[1..])
  }

  lemma CountsPrepend(e: Event, s: seq<Event>)
    ensures DataCount([e] + s) == (if e.Data? then 1 else 0) + DataCount(s)
    ensures CmdCount([e] + s) == (if e.Cmd? then 1 else 0) + CmdCount(s)
  {
    assert ([e] + s)[1..] == s;
  }

  /** Index i is not the '\n' of a CR LF pair. */
  predicate Clean(text: string, i: nat)
    requires i <= |text|
  {
    i == 0 || i == |text| || !(text[i] == '\n' && text[i - 1] == '\r')
  }

  /**
   * A message that completes writes one byte per character except the CR LF
   * pairs, and moves to a new row once per pair.
   */
  lemma {:induction false} MessageCounts(text: string, i: nat, row: int, cols: int, rows: int, entry: bv8)
    requires i <= |text| && Clean(text, i)
    requires MessageFrom(text, i, row, cols, rows, entry, false).ok
    ensures DataCount(MessageFrom(text, i, row, cols, rows, entry, false).events) == |text| - i - 2 * CrLfPairs(text, i)
    ensures CmdCount(MessageFrom(text, i, row, cols, rows, entry, false).events) == CrLfPairs(text, i)
    decreases |text| - i
  {
    if i < |text| {
      var o := MessageFrom(text, i, row, cols, rows, entry, false);
      if text[i] == '\r' && text[i + 1] == '\n' {
        var b := SetCursorCommand(NewlineColumn(entry, cols), row + 1, rows).value;
        var rest := MessageFrom(text, i + 2, row + 1, cols, rows, entry, false);
        assert MessageFrom(text, i + 1, row + 1, cols, rows, entry, false) == rest;
        assert o.events == [Cmd(b)] + rest.events;
        CountsPrepend(Cmd(b), rest.events);
        assert CrLfPairs(text, i + 1) == CrLfPairs(text, i + 2);
        MessageCounts(text, i + 2, row + 1, cols, rows, entry);
      } else {
        var rest := MessageFrom(text, i + 1, row, cols, rows, entry, false);
        assert o.events == [Data([CharByte(text[i])])] + rest.events;
        CountsPrepend(Data([CharByte(text[i])]), rest.events);
        MessageCounts(text, i + 1, row, cols, rows, entry);
      }
    }
  }

  /**
   * On a display of one to four rows a message fails exactly when its last
   * character is a '\r'.
   */
  lemma {:induction false} MessageOk(text: string, i: nat, row: int, cols: int, rows: int, entry: bv8)
    requires i <= |text| && 0 < rows <= 4 && row >= 0
    ensures MessageFrom(text, i, row, cols, rows, entry, false).ok <==> i == |text| || text[|text| - 1] != '\r'
    decreases |text| - i
  {
    if i < |text| {
      if text[i] == '\n' && i > 0 && text[i - 1] == '\r' {
        MessageOk(text, i + 1, row, cols, rows, entry);
      } else if text[i] == '\r' && i + 1 == |text| {
      } else if text[i] == '\r' && text[i + 1] == '\n' {
        var rw := CursorRow(row + 1, rows).value;
        assert 0 <= rw < rows;
        MessageOk(text, i + 1, row + 1, cols, rows, entry);
      } else {
        MessageOk(text, i + 1, row, cols, rows, entry);
      }
    }
  }

  /** For example "a\r\nb" on two rows of 16, left to right: a byte, row 1 at column 0 (0xC0), a byte. */
  lemma MessageExample(t: string)
    requires t == "a\r\nb"
    ensures MessageFrom(t, 0, 0, 16, 2, 0x02, false) == Outcome([Data([0x61]), Cmd(0xC0), Data([0x62])], true)
  {
    assert t[0] == 'a' && t[1] == '\r' && t[2] == '\n' && t[3] == 'b' && |t| == 4;
    assert CharByte('a') == 0x61 && CharByte('b') == 0x62;
    SetCursorInRange(0, 1, 2);
    assert NewlineColumn(0x02, 16) == 0;
    var m4 := MessageFrom(t, 4, 1, 16, 2, 0x02, false);
    assert m4 == Outcome([], true);
    var m3 := MessageFrom(t, 3, 1, 16, 2, 0x02, false);
    assert m3 == Prepend(Data([0x62]), m4);
    var m2 := MessageFrom(t, 2, 1, 16, 2, 0x02, false);
    assert m2 == m3;
    var m1 := MessageFrom(t, 1, 0, 16, 2, 0x02, false);
    assert m1 == Prepend(Cmd(0xC0), m2);
    assert MessageFrom(t, 0, 0, 16, 2, 0x02, false) == Prepend(Data([0x61]), m1);
  }

  /**
   * As written, writing a character fails, so a message completes only when
   * it is made of CR LF pairs alone; "Hi" writes nothing.
   */
  lemma {:induction false} MessageAsWrittenOnlyNewlines(text: string, i: nat, row: int, cols: int, rows: int, entry: bv8)
    requires i <= |text| && Clean(text, i)
    requires MessageFrom(text, i, row, cols, rows, entry, true).ok
    ensures |text| - i == 2 * CrLfPairs(text, i)
    ensures DataCount(MessageFrom(text, i, row, cols, rows, entry, true).events) == 0
    ensures MessageFrom("Hi", 0, 0, cols, rows, entry, true) == Outcome([], false)
    decreases |text| - i
  {
    if i < |text| {
      var b := SetCursorCommand(NewlineColumn(entry, cols), row + 1, rows).value;
      var rest := MessageFrom(text, i + 2, row + 1, cols, rows, entry, true);
      assert MessageFrom(text, i + 1, row + 1, cols, rows, entry, true) == rest;
      assert MessageFrom(text, i, row, cols, rows, entry, true).events == [Cmd(b)] + rest.events;
      assert CrLfPairs(text, i + 1) == CrLfPairs(text, i + 2);
      MessageAsWrittenOnlyNewlines(text, i + 2, row + 1, cols, rows, entry);
    }
  }

  // ------------------------------------------------------------- driver

  class Lcd {
    const cols: int
    const rows: int
    const pwm: bool
    /** The backlight pin the constructor kept (-1 when PWM was not possible). */
    const bl: int
    /** The bus set-up the constructor passes to initialise, protocol 6800. */
    const dev: Parallel.Chip
    var displaycontrol: bv8
    var entrymodeset: bv8
    var log: seq<Event>
    var host: seq<HostEffect>

    predicate Valid()
      reads this
    {
      Backlight.Configured(bl, pwm) && Parallel.WellFormed(dev)
    }

    /**
     * The constructor: bus set-up, the backlight block, the initial
     * backlight level, then startup.  `pwmPresent` and `chanPresent` stand
     * for the two directory checks of the sysfs PWM interface.
     */
    constructor (cols: int, rows: int, lines: seq<int>, bl: int, backlight: real, pwm: bool,
                 pwmPresent: bool, chanPresent: bool)
      requires |lines| == 11
      ensures Valid()
      ensures this.cols == cols && this.rows == rows && this.pwm == pwm
      ensures dev == Parallel.Initialise(lines, 6800)
      ensures this.bl == Backlight.SetupPin(bl, pwm, pwmPresent)
      ensures host == Backlight.SetupEffects(bl, pwm, pwmPresent, chanPresent)
                      + Backlight.LevelEffects(this.bl, pwm, backlight)
      ensures log == StartupEvents()
      ensures displaycontrol == 0x04 && entrymodeset == 0x02
    {
      this.cols := cols;
      this.rows := rows;
      this.pwm := pwm;
      dev := Parallel.Initialise(lines, 6800);
      this.bl := Backlight.SetupPin(bl, pwm, pwmPresent);
      Backlight.SetupKeepsChannel(bl, pwm, pwmPresent);
      host := Backlight.SetupEffects(bl, pwm, pwmPresent, chanPresent);
      log := [];
      new;
      SetBacklight(backlight);
      Startup();
    }

    /** startup: can be called again to reset the controller. */
    method Startup()
      modifies this
      ensures log == old(log) + StartupEvents()
      ensures displaycontrol == StartDisplayControl() && entrymodeset == StartEntryMode()
      ensures host == old(host)
    {
      log := log + [Cmd(FUNCTIONSET | EIGHTBITMODE | ((FUNCTIONSET | EIGHTBITMODE) >> 4)),
                    Cmd(FUNCTIONSET | EIGHTBITMODE | ((FUNCTIONSET | FOURBITMODE) >> 4)),
                    Cmd(FUNCTIONSET | FOURBITMODE | TWOLINE | DOTS5X8)];
      displaycontrol := DISPLAYON & !CURSORON & !BLINKON;
      log := log + [Cmd(DISPLAYCONTROL | displaycontrol)];
      entrymodeset := ENTRYRIGHT & !ENTRYSHIFT;
      log := log + [Cmd(ENTRYMODESET | entrymodeset)];
      Clear();
    }

    /** Switch one entry-mode flag and resend the register. */
    method SetEntryFlag(mask: bv8, on: bool)
      modifies this
      ensures entrymodeset == Flag(old(entrymodeset), mask, on)
      ensures displaycontrol == old(displaycontrol) && host == old(host)
      ensures log == old(log) + [Cmd(ENTRYMODESET | entrymodeset)]
    {
      if on {
        entrymodeset := entrymodeset | mask;
      } else {
        entrymodeset := entrymodeset & !mask;
      }
      log := log + [Cmd(ENTRYMODESET | entrymodeset)];
    }

    /** Switch one display-control flag and resend the register. */
    method SetDisplayFlag(mask: bv8, on: bool)
      modifies this
      ensures displaycontrol == Flag(old(displaycontrol), mask, on)
      ensures entrymodeset == old(entrymodeset) && host == old(host)
      ensures log == old(log) + [Cmd(DISPLAYCONTROL | displaycontrol)]
    {
      if on {
        displaycontrol := displaycontrol | mask;
      } else {
        displaycontrol := displaycontrol & !mask;
      }
      log := log + [Cmd(DISPLAYCONTROL | displaycontrol)];
    }

    /** autoscroll: the display shifts on each character. */
    method Autoscroll(on: bool)
      modifies this
      ensures entrymodeset == Flag(old(entrymodeset), ENTRYSHIFT, on)
      ensures displaycontrol == old(displaycontrol) && host == old(host)
      ensures log == old(log) + [Cmd(ENTRYMODESET | entrymodeset)]
    {
      SetEntryFlag(ENTRYSHIFT, on);
    }

    method SetLeftToRight()
      modifies this
      ensures entrymodeset == Flag(old(entrymodeset), ENTRYRIGHT, true)
      ensures displaycontrol == old(displaycontrol) && host == old(host)
      ensures log == old(log) + [Cmd(ENTRYMODESET | entrymodeset)]
    {
      SetEntryFlag(ENTRYRIGHT, true);
    }

    method SetRightToLeft()
      modifies this
      ensures entrymodeset == Flag(old(entrymodeset), ENTRYRIGHT, false)
      ensures displaycontrol == old(displaycontrol) && host == old(host)
      ensures log == old(log) + [Cmd(ENTRYMODESET | entrymodeset)]
    {
      SetEntryFlag(ENTRYRIGHT, false);
    }

    method Blink(on: bool)
      modifies this
      ensures displaycontrol == Flag(old(displaycontrol), BLINKON, on)
      ensures entrymodeset == old(entrymodeset) && host == old(host)
      ensures log == old(log) + [Cmd(DISPLAYCONTROL | displaycontrol)]
    {
      SetDisplayFlag(BLINKON, on);
    }

    method EnableDisplay(on: bool)
      modifies this
      ensures displaycontrol == Flag(old(displaycontrol), DISPLAYON, on)
      ensures entrymodeset == old(entrymodeset) && host == old(host)
      ensures log == old(log) + [Cmd(DISPLAYCONTROL | displaycontrol)]
    {
      SetDisplayFlag(DISPLAYON, on);
    }

    method ShowCursor(on: bool)
      modifies this
      ensures displaycontrol == Flag(old(displaycontrol), CURSORON, on)
      ensures entrymodeset == old(entrymodeset) && host == old(host)
      ensures log == old(log) + [Cmd(DISPLAYCONTROL | displaycontrol)]
    {
      SetDisplayFlag(CURSORON, on);
    }

    method Clear()
      modifies this
      ensures log == old(log) + [Cmd(CLEARDISPLAY), Delay]
      ensures displaycontrol == old(displaycontrol) && entrymodeset == old(entrymodeset) && host == old(host)
    {
      log := log + [Cmd(CLEARDISPLAY), Delay];
    }

    method Home()
      modifies this
      ensures log == old(log) + [Cmd(RETURNHOME), Delay]
      ensures displaycontrol == old(displaycontrol) && entrymodeset == old(entrymodeset) && host == old(host)
    {
      log := log + [Cmd(RETURNHOME), Delay];
    }

    method MoveCursorLeft()
      modifies this
      ensures log == old(log) + [Cmd(0x10)]
      ensures displaycontrol == old(displaycontrol) && entrymodeset == old(entrymodeset) && host == old(host)
    {
      log := log + [Cmd(CURSORDISPLAYSHIFT | (CURSORMOVE & !MOVERIGHT))];
    }

    method MoveCursorRight()
      modifies this
      ensures log == old(log) + [Cmd(0x14)]
      ensures displaycontrol == old(displaycontrol) && entrymodeset == old(entrymodeset) && host == old(host)
    {
      log := log + [Cmd(CURSORDISPLAYSHIFT | CURSORMOVE | MOVERIGHT)];
    }

    method MoveDisplayRight()
      modifies this
      ensures log == old(log) + [Cmd(0x1C)]
      ensures displaycontrol == old(displaycontrol) && entrymodeset == old(entrymodeset) && host == old(host)
    {
      log := log + [Cmd(CURSORDISPLAYSHIFT | DISPLAYMOVE | MOVERIGHT)];
    }

    /** set_cursor: false (and nothing sent) where Python raises. */
    method SetCursor(col: int, row: int) returns (ok: bool)
      modifies this
      ensures ok == SetCursorCommand(col, row, rows).Some?
      ensures log == old(log) + (if ok then [Cmd(SetCursorCommand(col, row, rows).value)] else [])
      ensures displaycontrol == old(displaycontrol) && entrymodeset == old(entrymodeset) && host == old(host)
    {
      var r := row;
      if r >= rows {
        if rows == 0 {
          return false;
        }
        r := PyMod(r, rows);
      }
      if !(-4 <= r < 4) {
        return false;
      }
      var off := if r >= 0 then RowOffsets()[r] else RowOffsets()[4 + r];
      log := log + [Cmd(SETDDRAMADDR | ToByte(col + off))];
      ok := true;
    }

    /** definechars: the slot command, then one 8-byte block per glyph. */
    method DefineChars(chars: seq<int>, location: int)
      modifies this
      ensures log == old(log) + [Cmd(CgramCommand(location))] + GlyphBlocks(chars)
      ensures displaycontrol == old(displaycontrol) && entrymodeset == old(entrymodeset) && host == old(host)
    {
      log := log + [Cmd(CgramCommand(location))];
      ghost var start := log;
      for i := 0 to |chars|
        invariant log == start + GlyphBlocks(chars[..i])
        invariant displaycontrol == old(displaycontrol) && entrymodeset == old(entrymodeset) && host == old(host)
      {
        assert chars[..i + 1][..i] == chars[..i];
        log := log + [Data(Be64(chars[i]))];
      }
      assert chars[..|chars|] == chars;
    }

    /**
     * One pass of message's loop at index i: skip the '\n' of a CR LF pair,
     * start a new row at the '\r' of one, or write the character.  `stop`
     * is set where Python raises.
     */
    method MessageStep(text: string, i: nat, row: int) returns (next: int, stop: bool, ghost out: seq<Event>)
      requires i < |text|
      modifies this
      ensures log == old(log) + out
      ensures displaycontrol == old(displaycontrol) && entrymodeset == old(entrymodeset) && host == old(host)
      ensures stop ==> MessageFrom(text, i, row, cols, rows, entrymodeset, false) == Outcome(out, false)
      ensures !stop ==>
        MessageFrom(text, i, row, cols, rows, entrymodeset, false).events
          == out + MessageFrom(text, i + 1, next, cols, rows, entrymodeset, false).events
      ensures !stop ==>
        MessageFrom(text, i, row, cols, rows, entrymodeset, false).ok
          == MessageFrom(text, i + 1, next, cols, rows, entrymodeset, false).ok
    {
      MessageFromStep(text, i, row, cols, rows, entrymodeset);
      next, stop, out := row, false, [];
      if text[i] == '\n' && i > 0 && text[i - 1] == '\r' {
        return;
      }
      if text[i] == '\r' && i + 1 == |text| {
        return row, true, [];
      }
      if text[i] == '\r' && text[i + 1] == '\n' {
        next := row + 1;
        var col := if entrymodeset & ENTRYRIGHT != 0 then 0 else cols - 1;
        assert col == NewlineColumn(entrymodeset, cols);
        var moved := SetCursor(col, next);
        if !moved {
          return next, true, [];
        }
        out := [Cmd(SetCursorCommand(col, next, rows).value)];
      } else {
        var e := Data([CharByte(text[i])]);
        log := log + [e];
        out := [e];
      }
    }

    /**
     * message: HOME, then the CR/LF loop.  The character write is modelled
     * as evidently intended (one byte per character); see the findings.
     */
    method Message(text: string) returns (ok: bool)
      modifies this
      ensures var o := MessageFrom(text, 0, 0, cols, rows, old(entrymodeset), false);
        log == old(log) + [Cmd(RETURNHOME), Delay] + o.events && ok == o.ok
      ensures displaycontrol == old(displaycontrol) && entrymodeset == old(entrymodeset) && host == old(host)
    {
      Home();
      ghost var entry := entrymodeset;
      ghost var start := log;
      ghost var total := MessageFrom(text, 0, 0, cols, rows, entry, false);
      ghost var rest := total;
      var row := 0;
      var i := 0;
      while i < |text|
        invariant 0 <= i <= |text|
        invariant displaycontrol == old(displaycontrol) && entrymodeset == entry == old(entrymodeset) && host == old(host)
        invariant rest == MessageFrom(text, i, row, cols, rows, entry, false)
        invariant log + rest.events == start + total.events && rest.ok == total.ok
        decreases |text| - i
      {
        var stop;
        ghost var out;
        ghost var before := log;
        row, stop, out := MessageStep(text, i, row);
        if stop {
          assert rest.events == out;
          return false;
        }
        ghost var after := MessageFrom(text, i + 1, row, cols, rows, entry, false);
        assert rest.events == out + after.events && rest.ok == after.ok;
        assert log + after.events == before + rest.events;
        i := i + 1;
        rest := after;
      }
      ok := true;
    }

    /** text: one block of `cols` bytes from the buffer passed. */
    method Text(t: seq<bv8>)
      requires 0 <= cols <= |t|
      modifies this
      ensures log == old(log) + [Data(t[..cols])]
      ensures displaycontrol == old(displaycontrol) && entrymodeset == old(entrymodeset) && host == old(host)
    {
      log := log + [Data(t[..cols])];
    }

    /** writedata: the first n bytes of the buffer passed, in one block. */
    method WriteData(t: seq<bv8>, n: nat)
      requires n <= |t|
      modifies this
      ensures log == old(log) + [Data(t[..n])]
      ensures displaycontrol == old(displaycontrol) && entrymodeset == old(entrymodeset) && host == old(host)
    {
      log := log + [Data(t[..n])];
    }

    /** readdata: n bytes clocked in, or nothing when rw is UNDEFINED (the C readdata returns -1 first). */
    method ReadData(n: nat)
      requires Valid()
      modifies this
      ensures log == old(log) + (if Parallel.RwRd(dev) == Parallel.UNDEFINED then [] else [Read(n)])
      ensures displaycontrol == old(displaycontrol) && entrymodeset == old(entrymodeset) && host == old(host)
    {
      if Parallel.RwRd(dev) != Parallel.UNDEFINED {
        log := log + [Read(n)];
      }
    }

    /** readstatus: the busy flag and address counter, read in command mode; nothing when rw is UNDEFINED. */
    method ReadStatus()
      requires Valid()
      modifies this
      ensures log == old(log) + (if Parallel.RwRd(dev) == Parallel.UNDEFINED then [] else [Status])
      ensures displaycontrol == old(displaycontrol) && entrymodeset == old(entrymodeset) && host == old(host)
    {
      if Parallel.RwRd(dev) != Parallel.UNDEFINED {
        log := log + [Status];
      }
    }

    /** setbacklight */
    method SetBacklight(level: real)
      requires Valid()
      modifies this
      ensures host == old(host) + Backlight.LevelEffects(bl, pwm, level)
      ensures log == old(log) && displaycontrol == old(displaycontrol) && entrymodeset == old(entrymodeset)
    {
      if Backlight.Usable(bl) {
        if !pwm {
          host := host + [Write(bl, level > 0.0)];
        } else {
          var chan := Backlight.PwmChannel(bl).value;
          if level > 0.0 {
            host := host + [PwmDuty(chan, Backlight.Duty(level)), PwmEnable(chan, true)];
          } else {
            host := host + [PwmEnable(chan, false)];
          }
        }
      }
    }
  }
}
