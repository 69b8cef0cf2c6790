/**
 * The RA6963 (T6963C-compatible) graphic LCD driver (RA6963.py) on the
 * parallel bus in 8080 mode.  Sixteen-bit parameters travel as two data
 * bytes, low byte first, before their command; the text, graphic and
 * character-generator home addresses are kept in the driver; the display
 * mode and mode set registers are shadowed and resent whole.
 */
module RA6963 {
  import opened Bus
  import Backlight
  import Parallel
  import Layout

  const SETCURSORPOINTER: bv8 := 0x21
  const SETOFFSETREGISTER: bv8 := 0x22
  const SETADDRESSPOINTER: bv8 := 0x24
  const SETTEXTHOMEADDRESS: bv8 := 0x40
  const SETTEXTAREA: bv8 := 0x41
  const SETGRAPHICHOMEADDRESS: bv8 := 0x42
  const SETGRAPHICAREA: bv8 := 0x43
  const MODESET: bv8 := 0x80
  const DISPLAYMODE: bv8 := 0x90
  const CURSORPATTERNSELECT: bv8 := 0xA0
  const DATAWRITEINCREMENT: bv8 := 0xC0
  const DATAREADINCREMENT: bv8 := 0xC1
  /** The write-decrement code; the source gives the read-decrement the same value. */
  const DATAWRITEDECREMENT: bv8 := 0xC2
  /** The non-variable write code, which the source also uses for the non-variable read. */
  const DATAWRITENONVARIABLE: bv8 := 0xC4
  const DATAREADNONVARIABLE: bv8 := 0xC4
  const SETDATAAUTOWRITE: bv8 := 0xB0
  const SETDATAAUTOREAD: bv8 := 0xB1
  const AUTORESET: bv8 := 0xB2
  const SCREENPEEK: bv8 := 0xE0
  const SCREENCOPY: bv8 := 0xE8
  const BITRESET: bv8 := 0xF0
  const BITSET: bv8 := 0xF8
  const BLINKTIME: bv8 := 0x50
  const CGROMFONTSELECT: bv8 := 0x70

  // Mode set field values and flags
  const OR: bv8 := 0x00
  const EXOR: bv8 := 0x01
  const AND: bv8 := 0x03
  const TEXTATTRIBUTE: bv8 := 0x04
  const EXTERNALCGROM: bv8 := 0x08
  // Display mode flags
  const CURSORBLINK: bv8 := 0x01
  const CURSORON: bv8 := 0x02
  const TEXTON: bv8 := 0x04
  const GRAPHICON: bv8 := 0x08

  const NEWLINE: bv8 := 0x0A

  /** The three home addresses: text, graphic, character generator. */
  datatype Homes = Homes(text: int, graphic: int, cg: int)

  /** The homes used when none are given. */
  const DefaultHomes := Homes(0x0000, 0x1000, 0x7800)

  /** A 16-bit parameter and its command. */
  function Param(v: int, command: bv8): seq<Event>
  {
    [Data(Le16(v)), Cmd(command)]
  }

  // -------------------------------------------------------- CG alignment

  /**
   * startup's correction of the character-generator home: an address with
   * any of its low eleven bits set becomes `cg & 0xF800`.
   */
  function RoundCg(cg: int): int
  {
    if cg % 2048 != 0 then cg % 0x1_0000 - cg % 2048 else cg
  }

  /**
   * The corrected address is a multiple of 2 KiB; an aligned one is kept;
   * for an address in 0 .. 0xFFFF it is the largest multiple of 2 KiB not
   * above it.
   */
  lemma CgRounding(cg: int)
    ensures RoundCg(cg) % 2048 == 0
    ensures cg % 2048 == 0 ==> RoundCg(cg) == cg
    ensures 0 <= cg < 0x1_0000 ==> 0 <= RoundCg(cg) <= cg < RoundCg(cg) + 2048
    ensures cg >= 0 ==> 0 <= RoundCg(cg) <= cg
  {
    if cg % 2048 != 0 {
      var q := cg / 0x1_0000;
      var r := cg % 0x1_0000;
      assert cg == 0x1_0000 * q + r;
      assert cg % 2048 == r % 2048 by {
        assert cg == 2048 * (32 * q + r / 2048) + r % 2048;
      }
      assert r == 2048 * (r / 2048) + r % 2048;
      assert RoundCg(cg) == 2048 * (r / 2048);
      if cg >= 0 {
        assert q >= 0;
      }
    }
  }

  /** The offset register parameter: `cg >> 11`, the 2 KiB block of the generator. */
  function OffsetBlock(cg: int): int
  {
    cg / 2048
  }

  /**
   * For addresses below 0x10000 rounding keeps the block (a misaligned
   * address at or above it falls to its block modulo 32); the default
   * generator 0x7800 is block 15.
   */
  lemma OffsetBlockKept(cg: int)
    ensures OffsetBlock(RoundCg(cg)) == OffsetBlock(cg) % 32 + (if cg % 2048 != 0 then 0 else OffsetBlock(cg) - OffsetBlock(cg) % 32)
    ensures OffsetBlock(RoundCg(0x7800)) == 15 && Le16(OffsetBlock(RoundCg(0x7800))) == [15, 0]
  {
    var b := cg / 2048;
    assert cg == 2048 * b + cg % 2048;
    if cg % 2048 != 0 {
      assert cg % 0x1_0000 == 2048 * (b % 32) + cg % 2048 by {
        assert b == 32 * (b / 32) + b % 32;
        assert cg == 0x1_0000 * (b / 32) + (2048 * (b % 32) + cg % 2048);
      }
    }
  }

  /** The transfers of startup for the given homes and screen width. */
  function StartupEvents(homes: Homes, pixx: int): seq<Event>
  {
    Param(homes.text, SETTEXTHOMEADDRESS) + Param(pixx / 8, SETTEXTAREA)
    + Param(homes.graphic, SETGRAPHICHOMEADDRESS) + Param(pixx / 8, SETGRAPHICAREA)
    + Param(OffsetBlock(RoundCg(homes.cg)), SETOFFSETREGISTER)
  }

  /** For example a 240-pixel-wide screen with the default homes: areas of 30 columns, generator block 15. */
  lemma StartupExample()
    ensures StartupEvents(DefaultHomes, 240) ==
      [Data([0x00, 0x00]), Cmd(0x40), Data([30, 0]), Cmd(0x41), Data([0x00, 0x10]), Cmd(0x42),
       Data([30, 0]), Cmd(0x43), Data([15, 0]), Cmd(0x22)]
  {
    assert RoundCg(0x7800) == 0x7800;
    CursorBytes(0, 0);
    CursorBytes(30, 0);
    CursorBytes(0, 16);
    CursorBytes(15, 0);
  }

  // ----------------------------------------------------------- pointers

  /** setcursor's parameter `256 * y + x` is the byte pair x, y for on-screen positions. */
  lemma CursorBytes(x: int, y: int)
    requires 0 <= x < 256 && 0 <= y < 256
    ensures Le16(256 * y + x) == [x as bv8, y as bv8]
    ensures FromLe16(Le16(256 * y + x)) == 256 * y + x
  {
    var v := 256 * y + x;
    DivModByte(v, x, y);
    assert ToByte(v) == x as bv8;
    assert v / 256 % 256 == y;
    assert ToByte(v / 256) == y as bv8;
    Le16RoundTrip(v);
  }

  /** Where definechars points the address register: 1 KiB into the generator, 8 bytes per slot. */
  function GlyphPointer(cg: int, location: int): int
  {
    cg + 128 * 8 + location * 8
  }

  /** The glyph writes of definechars: each 64-bit glyph as 8 bytes, most significant first. */
  function GlyphEvents(chars: seq<int>): (r: seq<Event>)
    ensures |r| == |chars|
    ensures forall k :: 0 <= k < |chars| ==> r[k] == Data(Be64(chars[k]))
  {
    if chars == [] then []
    else
      var n := |chars| - 1;
      assert forall k :: 0 <= k < n ==> chars[..n][k] == chars[k];
      GlyphEvents(chars[..n]) + [Data(Be64(chars[n]))]
  }

  /** The bytes a run of data transfers delivers, in order. */
  function Payload(events: seq<Event>): seq<bv8>
  {
    if events == [] then []
    else Payload(events[..|events| - 1]) + (match events[|events| - 1] case Data(b) => b case _ => [])
  }

  /** The glyphs as byte blocks. */
  function Glyphs(chars: seq<int>): (r: seq<seq<bv8>>)
    ensures |r| == |chars| && forall k :: 0 <= k < |chars| ==> r[k] == Be64(chars[k])
  {
    if chars == [] then []
    else
      var n := |chars| - 1;
      assert forall k :: 0 <= k < n ==> chars[..n][k] == chars[k];
      Glyphs(chars[..n]) + [Be64(chars[n])]
  }

  lemma {:induction false} GlyphPayload(chars: seq<int>)
    ensures Payload(GlyphEvents(chars)) == Layout.Concat(Glyphs(chars))
  {
    if chars != [] {
      var n := |chars| - 1;
      GlyphPayload(chars[..n]);
      assert GlyphEvents(chars)[..n] == GlyphEvents(chars[..n]);
      assert Glyphs(chars)[..n] == Glyphs(chars[..n]);
    }
  }

  /**
   * Glyph k of definechars lands at GlyphPointer(cg, location + k): the
   * auto-write stream puts its 8 bytes at offset 8k.  Slots are not reduced
   * modulo anything: slot location + k is simply 8k bytes further on.
   */
  lemma GlyphLanding(cg: int, location: int, chars: seq<int>, k: nat)
    requires k < |chars|
    ensures |Payload(GlyphEvents(chars))| == 8 * |chars|
    ensures Payload(GlyphEvents(chars))[8 * k .. 8 * k + 8] == Be64(chars[k])
    ensures GlyphPointer(cg, location) + 8 * k == GlyphPointer(cg, location + k)
  {
    GlyphPayload(chars);
    var g := Glyphs(chars);
    assert forall j :: 0 <= j < |g| ==> |g[j]| == 8;
    Layout.ConcatLayout(g, k);
  }

  // ------------------------------------------------------ shadow registers

  /** The mode field that modeset(m) selects: OR, EXOR, AND or text attribute; 0 otherwise. */
  function ModeField(mode: int): bv8
  {
    if mode == 1 then OR
    else if mode == 2 then EXOR
    else if mode == 3 then AND
    else if mode == 4 then TEXTATTRIBUTE
    else 0
  }

  /** The mode set register after modeset(m). */
  function ModeSetValue(modeset: bv8, mode: int): bv8
  {
    (modeset & !(OR | EXOR | AND | TEXTATTRIBUTE)) | ModeField(mode)
  }

  /** modeset replaces the low three bits by the selected field and keeps the rest, bit 0x08 included. */
  lemma ModeSetBits(modeset: bv8, mode: int)
    ensures ModeSetValue(modeset, mode) & 0xF8 == modeset & 0xF8
    ensures ModeSetValue(modeset, mode) & 0x07 == ModeField(mode)
    ensures ModeField(mode) in {0x00, 0x01, 0x03, 0x04}
    ensures ModeSetValue(modeset, mode) & EXTERNALCGROM == modeset & EXTERNALCGROM
  {
    var f := ModeField(mode);
    assert f & 0xF8 == 0;
  }

  // ------------------------------------------------------------- writetext

  /** The text with every byte b removed (str.replace(b, "")). */
  function Strip(s: seq<bv8>, b: bv8): seq<bv8>
  {
    if s == [] then []
    else Strip(s[..|s| - 1], b) + (if s[|s| - 1] == b then [] else [s[|s| - 1]])
  }

  /**
   * Stripping keeps every other byte in order: it distributes over
   * concatenation, and no removed byte remains.
   */
  lemma {:induction false} StripParts(s: seq<bv8>, t: seq<bv8>, b: bv8)
    ensures Strip(s + t, b) == Strip(s, b) + Strip(t, b)
    ensures b !in Strip(s, b)
    ensures |Strip(s, b)| == |s| - Layout.Count(s, b)
    decreases |t|
  {
    if t == [] {
      assert s + t == s;
      StripMisses(s, b);
    } else {
      var n := |t| - 1;
      assert (s + t)[..|s + t| - 1] == s + t[..n];
      StripParts(s, t[..n], b);
    }
  }

  lemma {:induction false} StripMisses(s: seq<bv8>, b: bv8)
    ensures b !in Strip(s, b)
    ensures |Strip(s, b)| == |s| - Layout.Count(s, b)
  {
    if s != [] {
      StripMisses(s[..|s| - 1], b);
      CountLast(s, b);
    }
  }

  /** Count read from the end. */
  lemma {:induction false} CountLast(s: seq<bv8>, b: bv8)
    requires s != []
    ensures Layout.Count(s, b) == Layout.Count(s[..|s| - 1], b) + (if s[|s| - 1] == b then 1 else 0)
  {
    if |s| > 1 {
      CountLast(s[1..], b);
      assert s[1..][..|s[1..]| - 1] == s[..|s| - 1][1..];
    }
  }

  /** The screen codes of ASCII bytes: each byte less 32 (the built-in font starts at the space). */
  function ScreenCodes(s: seq<bv8>): (r: seq<bv8>)
    ensures |r| == |s|
  {
    seq(|s|, i requires 0 <= i < |s| => s[i] - 32)
  }

  predicate Printable(s: seq<bv8>)
  {
    forall i :: 0 <= i < |s| ==> s[i] >= 32
  }

  /** For printable text the codes add back to the text: code 0 is the space. */
  lemma ScreenCodesRoundTrip(s: seq<bv8>)
    requires Printable(s)
    ensures forall i :: 0 <= i < |s| ==> ScreenCodes(s)[i] + 32 == s[i] && ScreenCodes(s)[i] < 224
  {
  }

  /**
   * writetext's loop: subtract 32 from every byte in place.  The bytearray
   * refuses a negative value, so a byte below 32 stops the loop with an error.
   */
  method SubtractSpaces(buf: array<bv8>) returns (ok: bool)
    modifies buf
    ensures ok == Printable(old(buf[..]))
    ensures ok ==> buf[..] == ScreenCodes(old(buf[..]))
  {
    var i := 0;
    while i < buf.Length
      invariant 0 <= i <= buf.Length
      invariant Printable(old(buf[..])[..i])
      invariant buf[..i] == ScreenCodes(old(buf[..])[..i])
      invariant buf[i..] == old(buf[..])[i..]
    {
      if buf[i] < 32 {
        assert old(buf[..])[i] == buf[i];
        return false;
      }
      buf[i] := buf[i] - 32;
      assert old(buf[..])[..i + 1] == old(buf[..])[..i] + [old(buf[..])[i]];
      assert buf[i + 1..] == old(buf[..])[i + 1..] by {
        assert forall j :: i + 1 <= j < buf.Length ==> buf[j] == old(buf[..])[i..][j - i];
      }
      i := i + 1;
    }
    assert old(buf[..])[..i] == old(buf[..]);
    assert buf[..i] == buf[..];
    ok := true;
  }

  /** definechars' loop over the glyphs. */
  method GlyphTransfers(chars: seq<int>) returns (sent: seq<Event>)
    ensures sent == GlyphEvents(chars)
  {
    sent := [];
    var i := 0;
    while i < |chars|
      invariant 0 <= i <= |chars|
      invariant sent == GlyphEvents(chars[..i])
    {
      sent := sent + [Data(Be64(chars[i]))];
      assert chars[..i + 1][..i] == chars[..i];
      i := i + 1;
    }
    assert chars[..i] == chars;
  }

  // ---------------------------------------------------------------- driver

  class Lcd {
    const pixx: nat
    const pixy: nat
    const rst: int
    const pwm: bool
    const bl: int
    const addr: Option<Homes>
    const dev: Parallel.Chip
    var displaymode: bv8
    var modeset: bv8
    var textaddress: int
    var graphicaddress: int
    var cgaddress: int
    var log: seq<Event>
    var host: seq<HostEffect>

    predicate Valid()
    {
      Backlight.Configured(bl, pwm) && Parallel.WellFormed(dev)
    }

    /** The homes startup installs. */
    function Homes(): Homes
    {
      if addr.None? then DefaultHomes else addr.value
    }

    /**
     * The constructor: bus set-up (protocol 8080; `lines` are d7..d0, cd,
     * wr, rd), the backlight block and level, the reset line driven high
     * and made an output, then startup.
     */
    constructor (pixx: nat, pixy: nat, lines: seq<int>, rst: int, bl: int, backlight: real, pwm: bool,
                 pwmPresent: bool, chanPresent: bool, addr: Option<Homes>)
      requires |lines| == 11
      ensures Valid()
      ensures this.pixx == pixx && this.pixy == pixy && this.rst == rst && this.pwm == pwm && this.addr == addr
      ensures dev == Parallel.Initialise(lines, 8080)
      ensures this.bl == Backlight.SetupPin(bl, pwm, pwmPresent)
      ensures host == Backlight.SetupEffects(bl, pwm, pwmPresent, chanPresent)
                      + Backlight.LevelEffects(this.bl, pwm, backlight)
                      + [Write(rst, true), SetMode(rst, Backlight.PI_OUTPUT), Write(rst, false), Write(rst, true)]
      ensures log == StartupEvents(Homes(), pixx)
      ensures displaymode == 0 && modeset == 0
      ensures textaddress == Homes().text && graphicaddress == Homes().graphic && cgaddress == RoundCg(Homes().cg)
    {
      this.pixx := pixx;
      this.pixy := pixy;
      this.rst := rst;
      this.pwm := pwm;
      this.addr := addr;
      displaymode := 0;
      modeset := 0;
      dev := Parallel.Initialise(lines, 8080);
      this.bl := Backlight.SetupPin(bl, pwm, pwmPresent);
      Backlight.SetupKeepsChannel(bl, pwm, pwmPresent);
      host := Backlight.SetupEffects(bl, pwm, pwmPresent, chanPresent);
      log := [];
      new;
      SetBacklight(backlight);
      host := host + [Write(rst, true), SetMode(rst, Backlight.PI_OUTPUT)];
      Startup();
    }

    /**
     * startup: a reset pulse, the homes and areas, and the character
     * generator home rounded down to a 2 KiB boundary.
     */
    method Startup()
      modifies this`host, this`log, this`textaddress, this`graphicaddress, this`cgaddress
      ensures host == old(host) + [Write(rst, false), Write(rst, true)]
      ensures textaddress == Homes().text && graphicaddress == Homes().graphic
      ensures cgaddress == RoundCg(Homes().cg)
      ensures log == old(log) + StartupEvents(Homes(), pixx)
    {
      host := host + [Write(rst, false), Write(rst, true)];
      var homes := if addr.None? then DefaultHomes else addr.value;
      textaddress := homes.text;
      graphicaddress := homes.graphic;
      cgaddress := homes.cg;
      log := log + Param(textaddress, SETTEXTHOMEADDRESS) + Param(pixx / 8, SETTEXTAREA)
                 + Param(graphicaddress, SETGRAPHICHOMEADDRESS) + Param(pixx / 8, SETGRAPHICAREA);
      if cgaddress % 2048 != 0 {
        cgaddress := cgaddress % 0x1_0000 - cgaddress % 2048;
      }
      log := log + Param(cgaddress / 2048, SETOFFSETREGISTER);
    }

    /** bitreset: 0xF0 | num. */
    method BitReset(num: int)
      modifies this`log
      ensures log == old(log) + [Cmd(BITRESET | ToByte(num))]
    {
      log := log + [Cmd(BITRESET | ToByte(num))];
    }

    /** bitset: 0xF8 | num. */
    method BitSet(num: int)
      modifies this`log
      ensures log == old(log) + [Cmd(BITSET | ToByte(num))]
    {
      log := log + [Cmd(BITSET | ToByte(num))];
    }

    /** blinktime: the 16-bit parameter, then 0x50. */
    method BlinkTime(num: int)
      modifies this`log
      ensures log == old(log) + Param(num, BLINKTIME)
    {
      log := log + Param(num, BLINKTIME);
    }

    /** cgromfont: parameter 2 for font 1, 3 for anything else. */
    method CgRomFont(num: int)
      modifies this`log
      ensures log == old(log) + Param(if num == 1 then 2 else 3, CGROMFONTSELECT)
    {
      if num == 1 {
        log := log + Param(0x0002, CGROMFONTSELECT);
      } else {
        log := log + Param(0x0003, CGROMFONTSELECT);
      }
    }

    /** setaddress: the address pointer. */
    method SetAddress(value: int)
      modifies this`log
      ensures log == old(log) + Param(value, SETADDRESSPOINTER)
    {
      log := log + Param(value, SETADDRESSPOINTER);
    }

    /** texthome: point at the text home and return it. */
    method TextHome() returns (a: int)
      modifies this`log
      ensures a == textaddress
      ensures log == old(log) + Param(textaddress, SETADDRESSPOINTER)
    {
      SetAddress(textaddress);
      a := textaddress;
    }

    /** graphichome: point at the graphic home and return it. */
    method GraphicHome() returns (a: int)
      modifies this`log
      ensures a == graphicaddress
      ensures log == old(log) + Param(graphicaddress, SETADDRESSPOINTER)
    {
      SetAddress(graphicaddress);
      a := graphicaddress;
    }

    /** cghome: point at the character generator home and return it. */
    method CgHome() returns (a: int)
      modifies this`log
      ensures a == cgaddress
      ensures log == old(log) + Param(cgaddress, SETADDRESSPOINTER)
    {
      SetAddress(cgaddress);
      a := cgaddress;
    }

    /** settexthome: store and send a new text home. */
    method SetTextHome(value: int)
      modifies this`log, this`textaddress
      ensures textaddress == value
      ensures log == old(log) + Param(value, SETTEXTHOMEADDRESS)
    {
      textaddress := value;
      log := log + Param(value, SETTEXTHOMEADDRESS);
    }

    /** setgraphichome: store and send a new graphic home. */
    method SetGraphicHome(value: int)
      modifies this`log, this`graphicaddress
      ensures graphicaddress == value
      ensures log == old(log) + Param(value, SETGRAPHICHOMEADDRESS)
    {
      graphicaddress := value;
      log := log + Param(value, SETGRAPHICHOMEADDRESS);
    }

    /** setcursor: the position as one 16-bit parameter 256 * y + x, then 0x21. */
    method SetCursor(x: int, y: int)
      modifies this`log
      ensures log == old(log) + Param(256 * y + x, SETCURSORPOINTER)
    {
      log := log + Param(256 * y + x, SETCURSORPOINTER);
    }

    /** clearall: zeros to the graphic area, the text area and the 2 KiB generator, each in an auto-write bracket. */
    method ClearAll()
      modifies this`log
      ensures log == old(log)
        + Param(graphicaddress, SETADDRESSPOINTER)
        + [Cmd(SETDATAAUTOWRITE), Data(Layout.Fill(0, pixx * pixy / 8)), Cmd(AUTORESET)]
        + Param(textaddress, SETADDRESSPOINTER)
        + [Cmd(SETDATAAUTOWRITE), Data(Layout.Fill(0, pixx * pixy / 64)), Cmd(AUTORESET)]
        + Param(cgaddress, SETADDRESSPOINTER)
        + [Cmd(SETDATAAUTOWRITE), Data(Layout.Fill(0, 2048)), Cmd(AUTORESET)]
    {
      var _ := GraphicHome();
      log := log + [Cmd(SETDATAAUTOWRITE), Data(Layout.Fill(0, pixx * pixy / 8)), Cmd(AUTORESET)];
      var _ := TextHome();
      log := log + [Cmd(SETDATAAUTOWRITE), Data(Layout.Fill(0, pixx * pixy / 64)), Cmd(AUTORESET)];
      var _ := CgHome();
      log := log + [Cmd(SETDATAAUTOWRITE), Data(Layout.Fill(0, 2048)), Cmd(AUTORESET)];
    }

    /** cursorblink: only bit 0x01 of the display mode changes. */
    method CursorBlink(blink: bool)
      modifies this`log, this`displaymode
      ensures displaymode == Flag(old(displaymode), CURSORBLINK, blink)
      ensures log == old(log) + [Cmd(DISPLAYMODE | displaymode)]
    {
      displaymode := if blink then displaymode | CURSORBLINK else displaymode & !CURSORBLINK;
      log := log + [Cmd(DISPLAYMODE | displaymode)];
    }

    /** cursordisplay: only bit 0x02 of the display mode changes. */
    method CursorDisplay(display: bool)
      modifies this`log, this`displaymode
      ensures displaymode == Flag(old(displaymode), CURSORON, display)
      ensures log == old(log) + [Cmd(DISPLAYMODE | displaymode)]
    {
      displaymode := if display then displaymode | CURSORON else displaymode & !CURSORON;
      log := log + [Cmd(DISPLAYMODE | displaymode)];
    }

    /** displaymode: only bits 0x04 (text) and 0x08 (graphic) change. */
    method DisplayMode(text: bool, graphic: bool)
      modifies this`log, this`displaymode
      ensures displaymode == Flag(Flag(old(displaymode), TEXTON, text), GRAPHICON, graphic)
      ensures log == old(log) + [Cmd(DISPLAYMODE | displaymode)]
    {
      displaymode := Flag(displaymode, TEXTON, text);
      displaymode := Flag(displaymode, GRAPHICON, graphic);
      log := log + [Cmd(DISPLAYMODE | displaymode)];
    }

    /** cursorpattern: 0xA0 | patt. */
    method CursorPattern(patt: int)
      modifies this`log
      ensures log == old(log) + [Cmd(CURSORPATTERNSELECT | ToByte(patt))]
    {
      log := log + [Cmd(CURSORPATTERNSELECT | ToByte(patt))];
    }

    /**
     * definechars: point at slot `location` past the 128 built-in glyphs,
     * then all glyphs in one auto-write bracket.
     */
    method DefineChars(chars: seq<int>, location: int)
      modifies this`log
      ensures log == old(log) + Param(GlyphPointer(cgaddress, location), SETADDRESSPOINTER)
                  + [Cmd(SETDATAAUTOWRITE)] + GlyphEvents(chars) + [Cmd(AUTORESET)]
    {
      SetAddress(GlyphPointer(cgaddress, location));
      var sent := GlyphTransfers(chars);
      log := log + [Cmd(SETDATAAUTOWRITE)] + sent + [Cmd(AUTORESET)];
    }

    /** externalcg: only bit 0x08 of the mode set changes. */
    method ExternalCg(external: bool)
      modifies this`log, this`modeset
      ensures modeset == Flag(old(modeset), EXTERNALCGROM, external)
      ensures log == old(log) + [Cmd(MODESET | modeset)]
    {
      modeset := if external then modeset | EXTERNALCGROM else modeset & !EXTERNALCGROM;
      log := log + [Cmd(MODESET | modeset)];
    }

    /** modeset: the low three bits become the selected mode; the rest is kept. */
    method ModeSet(mode: int)
      modifies this`log, this`modeset
      ensures modeset == ModeSetValue(old(modeset), mode)
      ensures log == old(log) + [Cmd(MODESET | modeset)]
    {
      modeset := modeset & !(OR | EXOR | AND | TEXTATTRIBUTE);
      if mode == 1 { modeset := modeset | OR; }
      if mode == 2 { modeset := modeset | EXOR; }
      if mode == 3 { modeset := modeset | AND; }
      if mode == 4 { modeset := modeset | TEXTATTRIBUTE; }
      log := log + [Cmd(MODESET | modeset)];
    }

    // The byte reads below clock nothing in when rd is UNDEFINED: the C
    // readdata and readregister return -1 first.  The commands around
    // them are still written.

    /** readdata: n bytes inside an auto-read bracket. */
    method ReadData(n: nat)
      requires Valid()
      modifies this`log
      ensures log == old(log) + [Cmd(SETDATAAUTOREAD)] + (if Parallel.RwRd(dev) == Parallel.UNDEFINED then [] else [Read(n)]) + [Cmd(AUTORESET)]
    {
      log := log + [Cmd(SETDATAAUTOREAD)];
      ReadBytes(n);
      log := log + [Cmd(AUTORESET)];
    }

    /** The readdata call itself: n bytes, or nothing when rd is UNDEFINED. */
    method ReadBytes(n: nat)
      requires Valid()
      modifies this`log
      ensures log == old(log) + (if Parallel.RwRd(dev) == Parallel.UNDEFINED then [] else [Read(n)])
    {
      if Parallel.RwRd(dev) != Parallel.UNDEFINED {
        log := log + [Read(n)];
      }
    }

    /** readincrement: one byte, pointer incremented. */
    method ReadIncrement()
      requires Valid()
      modifies this`log
      ensures log == old(log) + [Cmd(DATAREADINCREMENT)] + (if Parallel.RwRd(dev) == Parallel.UNDEFINED then [] else [Read(1)])
    {
      log := log + [Cmd(DATAREADINCREMENT)];
      ReadBytes(1);
    }

    /** readonvariable: one byte with the non-variable code the source uses (0xC4). */
    method ReadNonVariable()
      requires Valid()
      modifies this`log
      ensures log == old(log) + [Cmd(DATAREADNONVARIABLE)] + (if Parallel.RwRd(dev) == Parallel.UNDEFINED then [] else [Read(1)])
    {
      log := log + [Cmd(DATAREADNONVARIABLE)];
      ReadBytes(1);
    }

    /** readstatus: the status register, or nothing when rd is UNDEFINED. */
    method ReadStatus()
      requires Valid()
      modifies this`log
      ensures log == old(log) + (if Parallel.RwRd(dev) == Parallel.UNDEFINED then [] else [Status])
    {
      if Parallel.RwRd(dev) != Parallel.UNDEFINED {
        log := log + [Status];
      }
    }

    /** screencopy */
    method ScreenCopy()
      modifies this`log
      ensures log == old(log) + [Cmd(SCREENCOPY)]
    {
      log := log + [Cmd(SCREENCOPY)];
    }

    /** screenpeek: one byte, or nothing read when rd is UNDEFINED. */
    method ScreenPeek()
      requires Valid()
      modifies this`log
      ensures log == old(log) + [Cmd(SCREENPEEK)] + (if Parallel.RwRd(dev) == Parallel.UNDEFINED then [] else [Read(1)])
    {
      log := log + [Cmd(SCREENPEEK)];
      ReadBytes(1);
    }

    /** writedata: the bytes inside an auto-write bracket. */
    method WriteData(data: seq<bv8>)
      modifies this`log
      ensures log == old(log) + [Cmd(SETDATAAUTOWRITE), Data(data), Cmd(AUTORESET)]
    {
      log := log + [Cmd(SETDATAAUTOWRITE), Data(data), Cmd(AUTORESET)];
    }

    /** writedecrement: one byte (c_uint8), then 0xC2. */
    method WriteDecrement(value: int)
      modifies this`log
      ensures log == old(log) + [Data([ToByte(value)]), Cmd(DATAWRITEDECREMENT)]
    {
      log := log + [Data([ToByte(value)]), Cmd(DATAWRITEDECREMENT)];
    }

    /** writeincrement: one byte, then 0xC0. */
    method WriteIncrement(value: int)
      modifies this`log
      ensures log == old(log) + [Data([ToByte(value)]), Cmd(DATAWRITEINCREMENT)]
    {
      log := log + [Data([ToByte(value)]), Cmd(DATAWRITEINCREMENT)];
    }

    /** writeonvariable: one byte, then 0xC4. */
    method WriteNonVariable(value: int)
      modifies this`log
      ensures log == old(log) + [Data([ToByte(value)]), Cmd(DATAWRITENONVARIABLE)]
    {
      log := log + [Data([ToByte(value)]), Cmd(DATAWRITENONVARIABLE)];
    }

    /**
     * writetext: drop the newlines, turn ASCII into screen codes, and write
     * them from the text home in one auto-write bracket.  A byte below 32
     * fails before anything is sent.
     */
    method WriteText(text: seq<bv8>) returns (ok: bool)
      modifies this`log
      ensures ok == Printable(Strip(text, NEWLINE))
      ensures log == old(log) + if ok then Param(textaddress, SETADDRESSPOINTER)
        + [Cmd(SETDATAAUTOWRITE), Data(ScreenCodes(Strip(text, NEWLINE))), Cmd(AUTORESET)] else []
    {
      var stripped := Strip(text, NEWLINE);
      var buf := new bv8[|stripped|](i requires 0 <= i < |stripped| => stripped[i]);
      assert buf[..] == stripped;
      ok := SubtractSpaces(buf);
      if !ok {
        return;
      }
      var _ := TextHome();
      log := log + [Cmd(SETDATAAUTOWRITE), Data(buf[..]), Cmd(AUTORESET)];
    }

    /** setbacklight */
    method SetBacklight(level: real)
      requires Valid()
      modifies this`host
      ensures host == old(host) + Backlight.LevelEffects(bl, pwm, level)
    {
      if Backlight.Usable(bl) {
        if !pwm {
          host := host + [Write(bl, level > 0.0)];
        } else {
          var chan := Backlight.PwmChannel(bl).value;
          if level > 0.0 {
            host := host + [PwmDuty(chan, Backlight.Duty(level)), PwmEnable(chan, true)];
          } else {
            host := host + [PwmEnable(chan, false)];
          }
        }
      }
    }
  }
}
