/**
 * The ST7565 graphic LCD driver (ST7565.py) on SPI.  A command transfer is
 * `Cmds(bytes)` (A0 low, then one SPI write), a data transfer `Data(bytes)`
 * (A0 high).  The driver keeps the column offset `start` of the current
 * horizontal orientation and a screen buffer of pixy/8 pages of pixx
 * columns, which the two text writers fill before sending.
 */
module ST7565 {
  import opened Bus
  import Backlight
  import Layout

  const LCD_DISPLAYON: bv8 := 0xAE
  const LCD_SETDISPLAYSTARTLINE: bv8 := 0x40
  const LCD_SETPAGEADDRESS: bv8 := 0xB0
  const LCD_SETCOLUMNADDRESSUPPER: bv8 := 0x10
  const LCD_SETCOLUMNADDRESSLOWER: bv8 := 0x00
  const LCD_ADCREVERSE: bv8 := 0xA0
  const LCD_DISPLAYREVERSE: bv8 := 0xA6
  const LCD_DISPLAYALLPOINTS: bv8 := 0xA4
  const LCD_SETLCDBIAS: bv8 := 0xA2
  const LCD_READMODIFYWRITESTART: bv8 := 0xE0
  const LCD_READMODIFYWRITESTOP: bv8 := 0xEE
  const LCD_COMMONOUTPUTREVERSE: bv8 := 0xC0
  const LCD_SETPOWERCONTROL: bv8 := 0x28
  const LCD_SETRESISTORRATIO: bv8 := 0x20
  const LCD_SETELECTRONICVOLUME: bv8 := 0x81
  const LCD_STATICINDICATORON: bv8 := 0xAC

  const NEWLINE: char := '\n'

  // ------------------------------------------------------------- cursor

  /**
   * movecursor's guard `v >= bound | v < 0`.  Python binds `|` tighter
   * than the comparisons, so this is the chain
   * `v >= (bound | v) and (bound | v) < 0`.
   */
  predicate Rejects(v: int, bound: int)
  {
    v >= IntOr(bound, v) && IntOr(bound, v) < 0
  }

  /**
   * The guard as evaluated: it never rejects a non-negative argument, the
   * bound itself included, and it does reject -1.
   */
  lemma GuardAsWritten(v: int, bound: int)
    requires bound >= 0
    ensures v >= 0 ==> !Rejects(v, bound)
    ensures !Rejects(bound, bound) && !Rejects(bound + 1, bound)
    ensures Rejects(-1, bound)
  {
    if v >= 0 {
      IntOrNonNegative(bound, v);
    }
    IntOrNonNegative(bound, bound);
    IntOrNonNegative(bound, bound + 1);
    IntOrAllOnes(bound);
  }

  /** The page command `0xB0 | 7-page`: pages are numbered from the bottom. */
  function PageByte(page: int): bv8
  {
    ToByte(IntOr(LCD_SETPAGEADDRESS as int, 7 - page))
  }

  /** The low column command `0x00 | (x & 0xF)`. */
  function ColumnLow(x: int): bv8
  {
    ToByte(IntOr(LCD_SETCOLUMNADDRESSLOWER as int, x % 16))
  }

  /** The high column command `0x10 | ((x >> 4) & 0xF)`. */
  function ColumnHigh(x: int): bv8
  {
    ToByte(IntOr(LCD_SETCOLUMNADDRESSUPPER as int, (x / 16) % 16))
  }

  /** On pages 0..7 the page byte is 0xB7 - page: distinct pages give distinct commands. */
  lemma PageBytes(page: int)
    requires 0 <= page <= 7
    ensures PageByte(page) as int == 0xB7 - page
  {
    var b := 7 - page;
    assert Pow2(4) == 16;
    IntOrDisjoint(11, b, 4);
    assert IntOr(176, b) == 176 + b;
    assert LCD_SETPAGEADDRESS as int == 176;
    ByteOf(IntOr(176, b));
  }

  /**
   * The column bytes carry the two nibbles of x, and
   * (high nibble << 4) | low nibble recovers x modulo 256.
   */
  lemma ColumnBytes(x: int)
    ensures ColumnLow(x) as int == x % 16
    ensures ColumnHigh(x) as int == 0x10 + (x / 16) % 16
    ensures 16 * (ColumnHigh(x) as int - 0x10) + ColumnLow(x) as int == x % 256
  {
    var hi := (x / 16) % 16;
    assert Pow2(4) == 16;
    IntOrDisjoint(1, hi, 4);
    assert IntOr(16, hi) == 16 + hi;
    assert LCD_SETCOLUMNADDRESSUPPER as int == 16;
    assert LCD_SETCOLUMNADDRESSLOWER as int == 0;
    assert IntOr(0, x % 16) == x % 16;
    ByteOf(IntOr(16, hi));
    ByteOf(IntOr(0, x % 16));
    NibbleSplit(x);
  }

  lemma NibbleSplit(x: int)
    ensures 16 * ((x / 16) % 16) + x % 16 == x % 256
  {
    var q := x / 16;
    assert x == 16 * q + x % 16;
    assert q == 16 * (q / 16) + q % 16;
    assert x == 256 * (q / 16) + (16 * (q % 16) + x % 16);
    DivModByte(x, 16 * (q % 16) + x % 16, q / 16);
  }

  /** The transfers of movecursor(x, page) with the screen size and column offset given. */
  function MoveCursorEvents(x: int, page: int, pixx: int, pages: int, start: int): seq<Event>
  {
    if Rejects(x, pixx) || Rejects(page, pages) then []
    else [Cmds([PageByte(page), ColumnLow(x + start), ColumnHigh(x + start)])]
  }

  /**
   * The second pass of the writers (and cleardisplay): for each row, the
   * cursor to column 0 of page first+i, then the row as data.
   */
  function RowEvents(rows: seq<seq<bv8>>, first: int, pixx: nat, pages: nat, start: int): seq<Event>
  {
    if rows == [] then []
    else
      var n := |rows| - 1;
      RowEvents(rows[..n], first, pixx, pages, start) + MoveCursorEvents(0, first + n, pixx, pages, start) + [Data(rows[n])]
  }

  /** Column 0 of a non-negative page always gets its cursor command. */
  lemma CursorAtColumnZero(page: int, pixx: nat, pages: nat, start: int)
    requires page >= 0
    ensures MoveCursorEvents(0, page, pixx, pages, start) == [Cmds([PageByte(page), ColumnLow(start), ColumnHigh(start)])]
  {
    GuardAsWritten(0, pixx);
    GuardAsWritten(page, pages);
  }

  /**
   * From a non-negative first page, row i goes to page first+i at column 0
   * (offset by `start`): exactly one cursor command and one data block per row.
   */
  lemma {:induction false} RowsToPages(rows: seq<seq<bv8>>, first: int, pixx: nat, pages: nat, start: int)
    requires first >= 0
    ensures |RowEvents(rows, first, pixx, pages, start)| == 2 * |rows|
    ensures forall i :: 0 <= i < |rows| ==>
      RowEvents(rows, first, pixx, pages, start)[2 * i] == Cmds([PageByte(first + i), ColumnLow(start), ColumnHigh(start)])
      && RowEvents(rows, first, pixx, pages, start)[2 * i + 1] == Data(rows[i])
  {
    if rows != [] {
      var n := |rows| - 1;
      RowsToPages(rows[..n], first, pixx, pages, start);
      CursorAtColumnZero(first + n, pixx, pages, start);
      var prev := RowEvents(rows[..n], first, pixx, pages, start);
      var all := RowEvents(rows, first, pixx, pages, start);
      assert all == prev + [Cmds([PageByte(first + n), ColumnLow(start), ColumnHigh(start)]), Data(rows[n])];
      forall i | 0 <= i < |rows|
        ensures all[2 * i] == Cmds([PageByte(first + i), ColumnLow(start), ColumnHigh(start)])
        ensures all[2 * i + 1] == Data(rows[i])
      {
        if i < n {
          assert all[2 * i] == prev[2 * i] && all[2 * i + 1] == prev[2 * i + 1];
          assert rows[..n][i] == rows[i];
        }
      }
    }
  }

  /** The writers' and cleardisplay's loop over the rows. */
  method RowTransfers(rows: seq<seq<bv8>>, first: int, pixx: nat, pages: nat, start: int) returns (sent: seq<Event>)
    ensures sent == RowEvents(rows, first, pixx, pages, start)
  {
    sent := [];
    var i := 0;
    while i < |rows|
      invariant 0 <= i <= |rows|
      invariant sent == RowEvents(rows[..i], first, pixx, pages, start)
    {
      var page := first + i;
      if !Rejects(0, pixx) && !Rejects(page, pages) {
        sent := sent + [Cmds([PageByte(page), ColumnLow(0 + start), ColumnHigh(0 + start)])];
      }
      sent := sent + [Data(rows[i])];
      assert rows[..i + 1][..i] == rows[..i];
      i := i + 1;
    }
    assert rows[..i] == rows;
  }

  /** n pages of pixx zero columns, as cleardisplay sends them. */
  function ZeroRows(pixx: nat, n: nat): (r: seq<seq<bv8>>)
    ensures |r| == n && forall i :: 0 <= i < n ==> r[i] == Layout.Fill(0, pixx)
  {
    seq(n, i => Layout.Fill(0, pixx))
  }

  // -------------------------------------------------------------- writers

  /** The glyphs of a line, None when a character is missing from the font (KeyError). */
  function LineGlyphs(font: map<char, seq<bv8>>, line: seq<char>): (r: Option<seq<seq<bv8>>>)
    ensures r.Some? <==> forall j :: 0 <= j < |line| ==> line[j] in font
    ensures r.Some? ==> |r.value| == |line| && forall j :: 0 <= j < |line| ==> r.value[j] == font[line[j]]
  {
    if line == [] then Some([])
    else
      var n := |line| - 1;
      assert forall j :: 0 <= j < n ==> line[..n][j] == line[j];
      var prev := LineGlyphs(font, line[..n]);
      if prev.None? || line[n] !in font then None else Some(prev.value + [font[line[n]]])
  }

  /** A font of 8-column glyphs, as message_m expects. */
  predicate MonoFont(font: map<char, seq<bv8>>)
  {
    forall c :: c in font ==> |font[c]| == 8
  }

  /** Width of concatenated 8-column glyphs. */
  lemma ConcatWidth(glyphs: seq<seq<bv8>>)
    requires forall j :: 0 <= j < |glyphs| ==> |glyphs[j]| == 8
    ensures |Layout.Concat(glyphs)| == 8 * |glyphs|
  {
    if glyphs != [] {
      Layout.ConcatLayout(glyphs, 0);
    }
  }

  /**
   * The buffer row a writer builds for one line, or None where the source
   * fails: a character missing from the font, a line too long for the
   * 2*pixx line buffer, or an unknown alignment.  `mono` selects message_m
   * (8-column glyphs back to back, margins in whole characters) over
   * message (proportional glyphs with one blank column between them).
   */
  function RowOf(font: map<char, seq<bv8>>, line: seq<char>, align: char, pixx: nat, mono: bool): (r: Option<seq<bv8>>)
    requires mono ==> pixx % 8 == 0 && MonoFont(font)
    ensures r.Some? ==> |r.value| == pixx
  {
    var g := LineGlyphs(font, line);
    if g.None? then None
    else if mono then
      assert forall j :: 0 <= j < |g.value| ==> |g.value[j]| == 8;
      MonoRow(g.value, align, pixx)
    else ProportionalRowOf(g.value, align, pixx)
  }

  /** message_m's row: 8-column glyphs back to back, margins in whole characters. */
  function MonoRow(glyphs: seq<seq<bv8>>, align: char, pixx: nat): (r: Option<seq<bv8>>)
    requires pixx % 8 == 0 && forall j :: 0 <= j < |glyphs| ==> |glyphs[j]| == 8
    ensures r.Some? ==> |r.value| == pixx
  {
    var n := |glyphs|;
    var m := Layout.AlignMargins(pixx / 8 - n, align);
    if 8 * n > 2 * pixx || m.None? then None
    else
      ConcatWidth(glyphs);
      Layout.MarginsSameSign(pixx / 8 - n, align);
      Some(Layout.Place(Layout.Concat(glyphs), pixx, Layout.Margins(8 * m.value.left, 8 * m.value.right), 0))
  }

  /** message's row: the composed line placed with margins in columns. */
  function ProportionalRowOf(glyphs: seq<seq<bv8>>, align: char, pixx: nat): (r: Option<seq<bv8>>)
    ensures r.Some? ==> |r.value| == pixx
  {
    var content := Layout.Composed(glyphs);
    var m := Layout.AlignMargins(pixx - |content|, align);
    if (glyphs != [] && |content| >= 2 * pixx) || m.None? then None
    else
      Layout.MarginsSameSign(pixx - |content|, align);
      Some(Layout.Place(content, pixx, m.value, 0))
  }

  /**
   * The rows of the lines a writer gets through, in order, up to the first
   * line that fails.
   */
  function RowsOf(font: map<char, seq<bv8>>, lines: seq<seq<char>>, align: char, pixx: nat, mono: bool): (r: seq<seq<bv8>>)
    requires mono ==> pixx % 8 == 0 && MonoFont(font)
    ensures |r| <= |lines|
    ensures forall i :: 0 <= i < |r| ==> RowOf(font, lines[i], align, pixx, mono) == Some(r[i]) && |r[i]| == pixx
    ensures |r| < |lines| ==> RowOf(font, lines[|r|], align, pixx, mono).None?
  {
    var results := seq(|lines|, i requires 0 <= i < |lines| => RowOf(font, lines[i], align, pixx, mono));
    Leading(results)
  }

  /** The values before the first None. */
  function Leading<T>(xs: seq<Option<T>>): (r: seq<T>)
    ensures |r| <= |xs|
    ensures forall i :: 0 <= i < |r| ==> xs[i] == Some(r[i])
    ensures |r| < |xs| ==> xs[|r|].None?
  {
    if xs == [] || xs[0].None? then []
    else
      var rest := Leading(xs[1..]);
      assert forall i :: 1 <= i <= |rest| ==> xs[1..][i - 1] == xs[i];
      [xs[0].value] + rest
  }

  /**
   * A proportional row is the composed line placed with the alignment's
   * margins; a line that overflows is shorter than the 2*pixx line buffer,
   * so the window Layout.PlaceOverflows describes lies inside it.
   */
  lemma ProportionalRow(font: map<char, seq<bv8>>, line: seq<char>, align: char, pixx: nat)
    requires RowOf(font, line, align, pixx, false).Some?
    ensures LineGlyphs(font, line).Some?
    ensures var content := Layout.Composed(LineGlyphs(font, line).value);
      var m := Layout.AlignMargins(pixx - |content|, align);
      m.Some? && m.value.left + m.value.right + |content| == pixx && Layout.SameSign(m.value)
      && RowOf(font, line, align, pixx, false).value == Layout.Place(content, pixx, m.value, 0)
      && (line != [] ==> |content| < 2 * pixx)
  {
    var content := Layout.Composed(LineGlyphs(font, line).value);
    Layout.MarginsSameSign(pixx - |content|, align);
  }

  /**
   * A line of the proportional writer that fits, under a known alignment,
   * gets its row: the composed line between non-negative margins of zero
   * columns (Layout.ComposedPlaced then places each glyph).
   */
  lemma ProportionalRowFits(font: map<char, seq<bv8>>, line: seq<char>, align: char, pixx: nat, j: nat)
    requires align == 'l' || align == 'r' || align == 'c'
    requires LineGlyphs(font, line).Some? && j < |line| && pixx > 0
    requires |Layout.Composed(LineGlyphs(font, line).value)| <= pixx
    ensures RowOf(font, line, align, pixx, false).Some?
    ensures var g := LineGlyphs(font, line).value;
      var m := Layout.AlignMargins(pixx - |Layout.Composed(g)|, align).value;
      m.left >= 0 && m.right >= 0
      && RowOf(font, line, align, pixx, false).value == Layout.Place(Layout.Composed(g), pixx, m, 0)
  {
    var g := LineGlyphs(font, line).value;
    var content := Layout.Composed(g);
    assert Layout.AlignMargins(pixx - |content|, align).Some?;
    assert RowOf(font, line, align, pixx, false).Some?;
    ProportionalRow(font, line, align, pixx);
    Layout.CentreOddLeft(pixx - |content|);
  }

  /**
   * A line of message_m that fits: character j's 8 columns sit at
   * 8 * (left + j), where left is the margin in characters.
   */
  lemma MonoRowFits(font: map<char, seq<bv8>>, line: seq<char>, align: char, pixx: nat, j: nat)
    requires pixx % 8 == 0 && MonoFont(font)
    requires RowOf(font, line, align, pixx, true).Some?
    requires j < |line| && |line| <= pixx / 8
    ensures var m := Layout.AlignMargins(pixx / 8 - |line|, align).value;
      var row := RowOf(font, line, align, pixx, true).value;
      m.left >= 0
      && forall c :: 0 <= c < 8 ==> 8 * (m.left + j) + c < pixx && row[8 * (m.left + j) + c] == font[line[j]][c]
  {
    var g := LineGlyphs(font, line).value;
    var content := Layout.Concat(g);
    var m := Layout.AlignMargins(pixx / 8 - |line|, align).value;
    var m8 := Layout.Margins(8 * m.left, 8 * m.right);
    var row := RowOf(font, line, align, pixx, true).value;
    Layout.CentreOddLeft(pixx / 8 - |line|);
    assert m.left >= 0 && m.right >= 0;
    Layout.ConcatLayout(g, j);
    assert row == Layout.Place(content, pixx, m8, 0);
    Layout.PlacedPiece(content, pixx, m8, 0, 8 * j, g[j]);
    assert 8 * m.left + 8 * j == 8 * (m.left + j);
  }

  function Min(a: int, b: int): int
  {
    if a < b then a else b
  }

  /** The start-up commands before the screen is cleared. */
  const PowerUp: seq<Event> :=
    [Cmds([0xA2]), Cmds([0xA0]), Cmds([0xC0]), Cmds([0x40]),
     Cmds([0x2C]), Delay, Cmds([0x2E]), Delay, Cmds([0x2F]), Delay, Cmds([0x24]),
     Cmds([0xAF]), Cmds([0xA4]), Cmds([0x81, 0x19])]

  // ---------------------------------------------------------------- driver

  class Lcd {
    const pixx: nat
    const pixy: nat
    const lstart: int
    const rstart: int
    const a0: int
    const rst: int
    const pwm: bool
    const bl: int
    /** pixy/8 pages of pixx columns. */
    const buffer: array2<bv8>
    var start: int
    var log: seq<Event>
    var host: seq<HostEffect>

    predicate Valid()
    {
      buffer.Length0 == pixy / 8 && buffer.Length1 == pixx && Backlight.Configured(bl, pwm)
    }

    /** Page i of the buffer. */
    function Row(i: nat): (r: seq<bv8>)
      reads buffer
      requires Valid() && i < pixy / 8
      ensures |r| == pixx
    {
      seq(pixx, k requires 0 <= k < pixx reads buffer => buffer[i, k])
    }

    /**
     * The constructor: the A0 and reset lines made outputs, the backlight
     * block and level, a zeroed buffer, the reset line driven high, then
     * startup in the left-to-right orientation.
     */
    constructor (pixx: nat, pixy: nat, lstart: int, rstart: int, a0: int, rst: int, bl: int, backlight: real,
                 pwm: bool, pwmPresent: bool, chanPresent: bool)
      ensures Valid() && fresh(buffer)
      ensures this.pixx == pixx && this.pixy == pixy && this.lstart == lstart && this.rstart == rstart
      ensures this.a0 == a0 && this.rst == rst && this.pwm == pwm
      ensures this.bl == Backlight.SetupPin(bl, pwm, pwmPresent)
      ensures start == lstart
      ensures host == [SetMode(a0, Backlight.PI_OUTPUT), SetMode(rst, Backlight.PI_OUTPUT)]
                      + Backlight.SetupEffects(bl, pwm, pwmPresent, chanPresent)
                      + Backlight.LevelEffects(this.bl, pwm, backlight)
                      + [Write(rst, true), Write(rst, false), Settle, Write(rst, true)]
      ensures log == PowerUp + RowEvents(ZeroRows(pixx, pixy / 8), 0, pixx, pixy / 8, lstart)
      ensures forall i :: 0 <= i < pixy / 8 ==> Row(i) == Layout.Fill(0, pixx)
    {
      this.pixx := pixx;
      this.pixy := pixy;
      this.lstart := lstart;
      this.rstart := rstart;
      this.a0 := a0;
      this.rst := rst;
      this.pwm := pwm;
      start := lstart;
      this.bl := Backlight.SetupPin(bl, pwm, pwmPresent);
      Backlight.SetupKeepsChannel(bl, pwm, pwmPresent);
      host := [SetMode(a0, Backlight.PI_OUTPUT), SetMode(rst, Backlight.PI_OUTPUT)]
              + Backlight.SetupEffects(bl, pwm, pwmPresent, chanPresent);
      log := [];
      buffer := new bv8[pixy / 8, pixx]((i, k) => 0);
      new;
      SetBacklight(backlight);
      host := host + [Write(rst, true)];
      Startup();
    }

    /**
     * startup: a reset pulse, bias 1/9, normal orientations, start line 0,
     * the power circuits switched on one by one, display on, contrast 0x19,
     * and a cleared screen.
     */
    method Startup()
      requires Valid()
      modifies this`log, this`host, this`start
      ensures start == lstart
      ensures host == old(host) + [Write(rst, false), Settle, Write(rst, true)]
      ensures log == old(log) + PowerUp + RowEvents(ZeroRows(pixx, pixy / 8), 0, pixx, pixy / 8, lstart)
    {
      host := host + [Write(rst, false), Settle, Write(rst, true)];
      Configure();
      ClearDisplay();
    }

    /** The part of startup between the reset pulse and the clearing of the screen. */
    method Configure()
      modifies this`log, this`start
      ensures start == lstart
      ensures log == old(log) + PowerUp
    {
      ghost var before := log;
      SetLcdBias(9);
      VerticalReverse(false);
      HorizontalReverse(false);
      ByteOf(0);
      SetDisplayStartLine(0x00);
      assert log == before + PowerUp[..4];
      WriteCommands([LCD_SETPOWERCONTROL | 0x4]);
      log := log + [Delay];
      WriteCommands([LCD_SETPOWERCONTROL | 0x6]);
      log := log + [Delay];
      WriteCommands([LCD_SETPOWERCONTROL | 0x7]);
      log := log + [Delay];
      WriteCommands([LCD_SETRESISTORRATIO | 0x4]);
      assert log == before + PowerUp[..11];
      DisplayOn(true);
      DisplayAllPoints(false);
      ByteOf(0x19);
      SetContrast(0x19);
      assert log == before + PowerUp;
    }

    /** close: clear the screen, then sleep mode. */
    method Close()
      requires Valid()
      modifies this`log
      ensures log == old(log) + RowEvents(ZeroRows(pixx, pixy / 8), 0, pixx, pixy / 8, start)
                  + [Cmds([0xAC]), Cmds([0xAE]), Cmds([0xA5])]
    {
      ClearDisplay();
      SleepMode();
    }

    /** cleardisplay: pixx zero columns to every page, from column 0. */
    method ClearDisplay()
      modifies this`log
      ensures log == old(log) + RowEvents(ZeroRows(pixx, pixy / 8), 0, pixx, pixy / 8, start)
    {
      var sent := RowTransfers(ZeroRows(pixx, pixy / 8), 0, pixx, pixy / 8, start);
      log := log + sent;
    }

    method DisplayAllPoints(on: bool)
      modifies this`log
      ensures log == old(log) + [Cmds([if on then 0xA5 else 0xA4])]
    {
      if on {
        WriteCommands([LCD_DISPLAYALLPOINTS | 0x01]);
      } else {
        WriteCommands([LCD_DISPLAYALLPOINTS & !0x01]);
      }
    }

    method DisplayOn(on: bool)
      modifies this`log
      ensures log == old(log) + [Cmds([if on then 0xAF else 0xAE])]
    {
      if on {
        WriteCommands([LCD_DISPLAYON | 0x01]);
      } else {
        WriteCommands([LCD_DISPLAYON & !0x01]);
      }
    }

    method DisplayReverse(on: bool)
      modifies this`log
      ensures log == old(log) + [Cmds([if on then 0xA7 else 0xA6])]
    {
      if on {
        WriteCommands([LCD_DISPLAYREVERSE | 0x01]);
      } else {
        WriteCommands([LCD_DISPLAYREVERSE & !0x01]);
      }
    }

    /** horizontalreverse: the common output direction. */
    method HorizontalReverse(on: bool)
      modifies this`log
      ensures log == old(log) + [Cmds([if on then 0xC8 else 0xC0])]
    {
      if on {
        WriteCommands([LCD_COMMONOUTPUTREVERSE | 0x08]);
      } else {
        WriteCommands([LCD_COMMONOUTPUTREVERSE & !0x08]);
      }
    }

    /** movecursor: page and column, the column shifted by the current offset. */
    method MoveCursor(x: int, page: int)
      modifies this`log
      ensures log == old(log) + MoveCursorEvents(x, page, pixx, pixy / 8, start)
    {
      if Rejects(x, pixx) {
        return;
      }
      if Rejects(page, pixy / 8) {
        return;
      }
      var column := x + start;
      WriteCommands([PageByte(page), ColumnLow(column), ColumnHigh(column)]);
    }

    /** normalmode: all points off, display on, static indicator on. */
    method NormalMode()
      modifies this`log
      ensures log == old(log) + [Cmds([0xA4]), Cmds([0xAF]), Cmds([0xAD, 0x03])]
    {
      DisplayAllPoints(false);
      DisplayOn(true);
      StaticIndicatorOn(true, 0x03);
    }

    method ReadModifyWrite(on: bool)
      modifies this`log
      ensures log == old(log) + [Cmds([if on then 0xE0 else 0xEE])]
    {
      if on {
        WriteCommands([LCD_READMODIFYWRITESTART]);
      } else {
        WriteCommands([LCD_READMODIFYWRITESTOP]);
      }
    }

    /** setcontrast: the electronic volume, six bits of the level. */
    method SetContrast(level: int)
      modifies this`log
      ensures log == old(log) + [Cmds([LCD_SETELECTRONICVOLUME, ToByte(level % 64)])]
    {
      WriteCommands([LCD_SETELECTRONICVOLUME, ToByte(level % 64)]);
    }

    /** setdisplaystartline: six bits of the line. */
    method SetDisplayStartLine(line: int)
      modifies this`log
      ensures log == old(log) + [Cmds([LCD_SETDISPLAYSTARTLINE | ToByte(line % 64)])]
    {
      WriteCommands([LCD_SETDISPLAYSTARTLINE | ToByte(line % 64)]);
    }

    /** setlcdbias: 0xA2 for 9, 0xA3 for 7, nothing sent otherwise. */
    method SetLcdBias(which: int)
      modifies this`log
      ensures log == old(log) + if which == 9 then [Cmds([0xA2])] else if which == 7 then [Cmds([0xA3])] else []
    {
      if which == 9 {
        WriteCommands([LCD_SETLCDBIAS & !0x01]);
      } else if which == 7 {
        WriteCommands([LCD_SETLCDBIAS | 0x01]);
      }
    }

    /** sleepmode: static indicator off, display off, all points on. */
    method SleepMode()
      modifies this`log
      ensures log == old(log) + [Cmds([0xAC]), Cmds([0xAE]), Cmds([0xA5])]
    {
      StaticIndicatorOn(false, 0x03);
      DisplayOn(false);
      DisplayAllPoints(true);
    }

    /** standbymode: static indicator on, display off, all points on. */
    method StandbyMode()
      modifies this`log
      ensures log == old(log) + [Cmds([0xAD, 0x03]), Cmds([0xAE]), Cmds([0xA5])]
    {
      StaticIndicatorOn(true, 0x03);
      DisplayOn(false);
      DisplayAllPoints(true);
    }

    /** staticindicatoron: on takes the register byte as a second command byte. */
    method StaticIndicatorOn(on: bool, register: int)
      modifies this`log
      ensures log == old(log) + [if on then Cmds([0xAD, ToByte(register)]) else Cmds([0xAC])]
    {
      if on {
        WriteCommands([LCD_STATICINDICATORON | 0x01, ToByte(register)]);
      } else {
        WriteCommands([LCD_STATICINDICATORON & !0x01]);
      }
    }

    /** verticalreverse: the segment direction, and the column offset that goes with it. */
    method VerticalReverse(on: bool)
      modifies this`log, this`start
      ensures start == if on then rstart else lstart
      ensures log == old(log) + [Cmds([if on then 0xA1 else 0xA0])]
    {
      if on {
        WriteCommands([LCD_ADCREVERSE | 0x01]);
        start := rstart;
      } else {
        WriteCommands([LCD_ADCREVERSE & !0x01]);
        start := lstart;
      }
    }

    method WriteData(data: seq<bv8>)
      modifies this`log
      ensures log == old(log) + [Data(data)]
    {
      log := log + [Data(data)];
    }

    method WriteCommands(commands: seq<bv8>)
      modifies this`log
      ensures log == old(log) + [Cmds(commands)]
    {
      log := log + [Cmds(commands)];
    }

    /** message: the proportional-font writer. */
    method Message(text: seq<char>, align: char, first: int, font: map<char, seq<bv8>>) returns (ok: bool)
      requires Valid()
      modifies this`log, buffer
      ensures var lines := Layout.Split(text, NEWLINE);
        var rows := RowsOf(font, lines, align, pixx, false);
        var stored := rows[..Min(|rows|, pixy / 8)];
        ok == (|rows| == |lines| && |lines| <= pixy / 8)
        && (forall i :: 0 <= i < |stored| ==> Row(i) == stored[i])
        && (forall i :: |stored| <= i < pixy / 8 ==> Row(i) == old(Row(i)))
        && log == old(log) + (if ok then RowEvents(rows, first, pixx, pixy / 8, start) else [])
    {
      ok := WriteMessage(text, align, first, font, false);
    }

    /** message_m: the 8-column monospaced writer, with its font as a parameter. */
    method MessageM(text: seq<char>, align: char, first: int, font: map<char, seq<bv8>>) returns (ok: bool)
      requires Valid() && pixx % 8 == 0 && MonoFont(font)
      modifies this`log, buffer
      ensures var lines := Layout.Split(text, NEWLINE);
        var rows := RowsOf(font, lines, align, pixx, true);
        var stored := rows[..Min(|rows|, pixy / 8)];
        ok == (|rows| == |lines| && |lines| <= pixy / 8)
        && (forall i :: 0 <= i < |stored| ==> Row(i) == stored[i])
        && (forall i :: |stored| <= i < pixy / 8 ==> Row(i) == old(Row(i)))
        && log == old(log) + (if ok then RowEvents(rows, first, pixx, pixy / 8, start) else [])
    {
      ok := WriteMessage(text, align, first, font, true);
    }

    /**
     * The two writers: the first pass builds one buffer page per line and
     * stops at the first line that fails (or that has no page); the second
     * pass sends the pages when every line got through.
     */
    method WriteMessage(text: seq<char>, align: char, first: int, font: map<char, seq<bv8>>, mono: bool) returns (ok: bool)
      requires Valid() && (mono ==> pixx % 8 == 0 && MonoFont(font))
      modifies this`log, buffer
      ensures var lines := Layout.Split(text, NEWLINE);
        var rows := RowsOf(font, lines, align, pixx, mono);
        var stored := rows[..Min(|rows|, pixy / 8)];
        ok == (|rows| == |lines| && |lines| <= pixy / 8)
        && (forall i :: 0 <= i < |stored| ==> Row(i) == stored[i])
        && (forall i :: |stored| <= i < pixy / 8 ==> Row(i) == old(Row(i)))
        && log == old(log) + (if ok then RowEvents(rows, first, pixx, pixy / 8, start) else [])
    {
      var lines := Layout.Split(text, NEWLINE);
      var rows := RowsOf(font, lines, align, pixx, mono);
      var stored := rows[..Min(|rows|, pixy / 8)];
      StoreRows(stored);
      ok := |rows| == |lines| && |lines| <= pixy / 8;
      if ok {
        assert stored == rows;
        var sent := RowTransfers(rows, first, pixx, pixy / 8, start);
        log := log + sent;
      }
    }

    /** Copy rows into the buffer from page 0 on; the pages after them keep their bytes. */
    method StoreRows(rows: seq<seq<bv8>>)
      requires Valid() && |rows| <= pixy / 8
      requires forall i :: 0 <= i < |rows| ==> |rows[i]| == pixx
      modifies buffer
      ensures forall i :: 0 <= i < |rows| ==> Row(i) == rows[i]
      ensures forall i :: |rows| <= i < pixy / 8 ==> Row(i) == old(Row(i))
    {
      var i := 0;
      while i < |rows|
        invariant 0 <= i <= |rows|
        invariant forall r, k :: 0 <= r < i && 0 <= k < pixx ==> buffer[r, k] == rows[r][k]
        invariant forall r, k :: i <= r < pixy / 8 && 0 <= k < pixx ==> buffer[r, k] == old(buffer[r, k])
      {
        var row := rows[i];
        forall k | 0 <= k < pixx {
          buffer[i, k] := row[k];
        }
        i := i + 1;
      }
      forall r | 0 <= r < |rows|
        ensures Row(r) == rows[r]
      {
        assert forall k :: 0 <= k < pixx ==> Row(r)[k] == rows[r][k];
      }
      forall r | |rows| <= r < pixy / 8
        ensures Row(r) == old(Row(r))
      {
        assert forall k :: 0 <= k < pixx ==> Row(r)[k] == old(Row(r))[k];
      }
    }

    /** setbacklight */
    method SetBacklight(level: real)
      requires Valid()
      modifies this`host
      ensures host == old(host) + Backlight.LevelEffects(bl, pwm, level)
    {
      if Backlight.Usable(bl) {
        if !pwm {
          host := host + [Write(bl, level > 0.0)];
        } else {
          var chan := Backlight.PwmChannel(bl).value;
          if level > 0.0 {
            host := host + [PwmDuty(chan, Backlight.Duty(level)), PwmEnable(chan, true)];
          } else {
            host := host + [PwmEnable(chan, false)];
          }
        }
      }
    }
  }
}
