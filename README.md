# Raspberry Pi parallel-bus LCD drivers, modelled in Dafny

This project models `parallel`, a set of Raspberry Pi drivers for character and graphic LCD controllers:

- the HD44780, ST7920 and RA6963 drivers, which reach their controllers through a bit-banged 6800/8080 parallel bus written in C (`parallel.c`);
- the ST7565 driver, which uses SPI.

## Modules

| module | file | what it covers |
|---|---|---|
| `Bus` | `bus.dfy` | Shared definitions: the `Event` log of bus transfers, the `HostEffect` log of GPIO and sysfs side effects, and Python and ctypes semantics used by the drivers |
| `Parallel` | `parallel.dfy` | The GPIO register block (`gpioSetMode`, `gpioGetMode`, `gpioWrite`); `initialise`, bus width, `writeparallel`, `readparallel`, `readdata`, `readregister`; the RS/CD levels of writes and reads |
| `Backlight` | `backlight.dfy` | The backlight block in every constructor (plain GPIO or hardware PWM through sysfs) and `setbacklight` |
| `Layout` | `layout.dfy` | The text layout the `message` writers share: `str.split`, alignment margins, placing a line in a row, composing glyphs |
| `HD44780` | `hd44780.dfy` | The HD44780 character-LCD driver (`HD44780.py`) |
| `ST7920` | `st7920.dfy` | The ST7920 character/graphic driver (`ST7920.py`) |
| `RA6963` | `ra6963.dfy` | The RA6963 (T6963C) graphic driver (`RA6963.py`) |
| `ST7565` | `st7565.dfy` | The ST7565 SPI graphic driver (`ST7565.py`) |

## How the drivers are modelled

Each driver is a class:

- Its shadow registers are mutable fields: `displaycontrol`, `entrymodeset`, `functionset`, `displaystatus`, `modeset`, `displaymode`, the home addresses and the column offset.
- Its numpy buffers are arrays: `bufferc` in the ST7920 and `buffer` in the ST7565.
- Two append-only logs record what reaches the outside:
  - `log` for bus transfers;
  - `host` for GPIO and sysfs writes.
- The ST7920 also keeps a `printed` log of the complaints the driver prints instead of failing, and its `write` flag, which decides the dummy read.

Each method states:

- the exact transfers it appends to `log`;
- the new values of the fields it changes;
- for the writers, the buffer rows it leaves.

Pure functions capture the address arithmetic and the text layout. Lemmas then prove what that arithmetic is meant to achieve:

- addresses are distinct and commands round-trip;
- glyphs land where they are meant to;
- layouts place every character;
- a byte written over the parallel bus reads back unchanged.

## Model

| member | source | states |
|---|---|---|
| Bus.ToByte | HD44780.py:79 | A Python int handed to a `c_ubyte` argument arrives as its value modulo 256 |
| Bus.PyIndex | HD44780.py:306 | Python indexing with negative indices: defined exactly for -len <= i < len, counting from the end for negative i; undefined (IndexError) otherwise |
| Bus.PyMod | HD44780.py:304-305 | Python `%` takes the sign of the divisor: the result is in [0, b) for b > 0 and in (b, 0] for b < 0 |
| Bus.PyFloorDiv | ST7565.py:433 | Python `//` is floor division: q * b <= a < q * b + b |
| Bus.Flag | HD44780.py:217-222 | Switching a flag on (OR with the mask) or off (AND with its complement) sets or clears exactly the mask's bits and keeps all others |
| Bus.Le16RoundTrip | RA6963.py:416-419 | The two bytes of a little-endian `c_uint16` parameter decode to the parameter modulo 2^16 |
| Bus.BeRoundTrip | RA6963.py:329-335 | The n bytes of a big-endian integer, most significant first, decode back to any value below 256^n |
| Bus.HighBitInjective | ST7920.py:417-420 | Two addresses below 0x80 with the top bit OR-ed in give the same byte only when the addresses are equal |
| Bus.IntOrNonNegative | ST7565.py:320-329 | Python's bitwise OR on non-negative ints is non-negative and at least each operand |
| Bus.IntOrAllOnes | ST7565.py:320-329 | OR with -1 (all bits set) is -1 |
| Bus.IntOrDisjoint | ST7565.py:320-329 | When q * 2^n and b < 2^n share no bits, OR is addition |
| Parallel.GetAfterSet | parallel.c:101-119 | gpioGetMode after gpioSetMode returns the mode's low three bits; a mode that fits its field leaves the field of every other GPIO of the word unchanged, and the two spare top bits too |
| Parallel.Gpio.SetMode | parallel.c:101-109 | gpioSetMode replaces only the function-select word of the GPIO, with the new 3-bit field, and reading the field back gives the mode |
| Parallel.Gpio.Write | parallel.c:137-141 | gpioWrite stores the GPIO's single bit in GPCLR0 for level 0 and in GPSET0 otherwise, in the bank gpio >> 5; no other register changes, and the store is appended to the log of set/clear stores |
| Parallel.IdleLevels | parallel.c:397-401 | Before the modes are set, a 6800 bus drives exactly its read/write line (when present) and its enable line low, an 8080 bus drives exactly its read and write strobes high, and any other protocol drives nothing. That is two stores, or one when rwrd is absent |
| Parallel.Gpio.SetIdleLevels | parallel.c:397-401 | initialise's idle-level stores, in order: the store log grows by exactly those stores, and the set or clear register keeps the last one |
| Parallel.SetModes | parallel.c:281-291 | The mode loop over a list of lines: every listed GPIO gets the mode, every other GPIO keeps its mode, and the spare bits are kept; UNDEFINED lines are skipped |
| Parallel.Initialise | parallel.c:360-393 | initialise stores each line as `(unsigned)` of its argument. The optional lines d3, d2, d1, d0 and rwrd become UNDEFINED outside 0..27; the other lines are kept as given. The idle-level stores that follow are Parallel.Gpio.SetIdleLevels |
| Parallel.FourBitBus | parallel.c:204-205 | The bus is 4 bits wide exactly when d0 lies outside 0..27, and a byte then takes two cycles instead of one |
| Parallel.ConfigureModes | parallel.c:403-419 | After initialise, the control lines are outputs and the present data lines are inputs; every other GPIO below 30 keeps its mode |
| Parallel.Bits | parallel.c:309-314 | A byte has exactly 8 bits, listed most significant first |
| Parallel.BitsDetermine | parallel.c:234-238 | Two bytes with the same bits are equal |
| Parallel.TopIsFirst | parallel.c:311 | `datum & 0x80` tests bit 0 in the most-significant-first order |
| Parallel.ShiftUp | parallel.c:313 | `datum << 1` moves each bit one place towards the top |
| Parallel.ShiftedNext | parallel.c:313 | Shifting n + 1 times is shifting n times and then once more |
| Parallel.ShiftedBit | parallel.c:309-314 | After n shifts, bit m of the copy is bit n + m of the original byte |
| Parallel.ByteCycles | parallel.c:303 | A byte takes 8 / bpc clock cycles |
| Parallel.ByteCycleAt | parallel.c:300-314 | Cycle j of a byte sends bpc bits starting at bit j * bpc, high nibble first on a 4-bit bus |
| Parallel.MaskLine | parallel.c:304-313 | In one cycle: data line q is in `set` when bit start + q is 1 and in `clr` when it is 0; the clock line is in `set` for 6800 and in `clr` for 8080; no other line is in either mask |
| Parallel.MasksDisjoint | parallel.c:304-313 | No line is both set and cleared in one cycle |
| Parallel.CycleOf | parallel.c:304-314 | The inner loop of writeparallel produces exactly the masks of the cycle, and leaves the datum shifted past the bits it sent |
| Parallel.WriteParallel | parallel.c:300-338 | writeparallel drives, for each byte in order, exactly the cycles of that byte |
| Parallel.LineLevels | parallel.c:232-238 | One GPLEV0 reading yields the levels of the bpc data lines, d7 first |
| Parallel.SampledBitsSnoc | parallel.c:222-238 | One more reading appends the levels of its data lines; n readings give n * bpc bits |
| Parallel.PackSnoc | parallel.c:236-237 | Shifting in one more bit shifts the byte built so far left by one and ORs the level into bit 0 |
| Parallel.ShiftIn | parallel.c:236-237 | Shifting left and OR-ing in the level moves each bit one place up and puts the level in the lowest bit |
| Parallel.PackBit | parallel.c:221-238 | After up to eight bits are shifted in from zero, they are the low bits of the byte, in order |
| Parallel.PackBits | parallel.c:221-249 | Eight bits shifted in from zero give the byte whose bits they are |
| Parallel.LineLevelsPrefix | parallel.c:234-238 | The levels of the first k + 1 data lines are the levels of the first k lines followed by line k's level |
| Parallel.ShiftInCycle | parallel.c:234-238 | The inner loop of readparallel shifts in the levels of the data lines of one reading, d7 first |
| Parallel.ReadParallel | parallel.c:219-249 | readparallel returns one byte per transfer; the bits of each byte, from the top, are the data-line levels sampled in its cycles |
| Parallel.Levels | parallel.c:300-338 | The line levels seen during a write: one reading per cycle, with each line's level as that cycle drives it |
| Parallel.CycleReadsBack | parallel.c:309-314 | The data lines a cycle drives read back as exactly the bits that cycle sends |
| Parallel.RoundTrip | parallel.c:219-338 | writeparallel and readparallel are inverse: reading the levels written for a byte string gives that byte string back |
| Parallel.ReadSelect | parallel.c:436-473 | readdata and readregister do nothing and return -1 exactly when rwrd is UNDEFINED; otherwise they return the RS/CD masks of the read |
| Parallel.RegisterSelectLevels | parallel.c:436-503 | RS/CD levels: high for data with 6800 and low for data with 8080; commands use the opposite level; reads use the level of the matching write |
| Parallel.ReadRegister | parallel.c:456-473 | readregister returns -1 when rwrd is absent; otherwise it returns a value in 0..255, the byte read in one transfer |
| Parallel.ReadData | parallel.c:436-451 | readdata returns -1 and reads nothing when rwrd is absent; otherwise it returns 0 and reads one byte per requested transfer |
| Backlight.PwmChannel | HD44780.py:176-177 | Only GPIO 12, 13, 18 and 19 have a PWM channel: channel 0 for 12 and 18, channel 1 for 13 and 19 |
| Backlight.SetupPin | HD44780.py:169-188 | The constructor keeps `bl` unless PWM is requested for a usable pin: it then becomes -1 when the PWM directory is missing or the pin has no PWM channel |
| Backlight.Trunc | HD44780.py:326 | Python `int(x)` truncates toward zero |
| Backlight.LevelEffects | HD44780.py:319-329 | setbacklight on an unusable pin does nothing. Without PWM it drives the pin high exactly for a positive level. With PWM it writes the truncated duty and enables the channel for a positive level, and only disables it otherwise |
| Backlight.SetupKeepsChannel | HD44780.py:169-190 | Whatever the sysfs state, the pin the constructor keeps can be driven by setbacklight: with PWM, a usable pin always has a channel |
| Backlight.DutyTruncates | HD44780.py:326 | The duty is `level * 100000` truncated, not rounded; it lies in 0..100000 for levels in (0, 1] |
| Backlight.DutyExamples | HD44780.py:326 | Concrete duties: level 0.5 gives 50000, 0.999999 gives 99999, 0.0000001 gives 0 |
| Layout.Split | ST7565.py:414 | `str.split(sep)` always gives at least one piece |
| Layout.SplitJoin | ST7565.py:414 | Splitting loses nothing: joining the pieces gives the text back, no piece holds the separator, and there is one more piece than separators |
| Layout.AlignMargins | ST7565.py:425-435 | Margins are defined exactly for 'l', 'r' and 'c', and always add up to the free space; 'l' puts it all on the right and 'r' all on the left |
| Layout.CentreOddLeft | ST7565.py:432-434 | Centring splits the free space evenly; an odd unit goes to the left margin (an odd overflow is cut on the left). For example, 7 gives margins 4 and 3 |
| Layout.MarginsSameSign | ST7565.py:425-437 | The margins of a valid alignment are both non-negative or both non-positive, also when scaled by 8 or 2 |
| Layout.Fill | ST7565.py:438 | `fill(b)` on n slots gives n copies of b, none for n <= 0 |
| Layout.Place | ST7565.py:437-443 | A line placed in a row always yields exactly `width` bytes |
| Layout.PlaceFits | ST7565.py:437-440 | A line that fits lies at offset `left`, with the fill byte everywhere else |
| Layout.PlacedPiece | ST7565.py:437-440 | A piece at offset a of a fitting line lies at left + a in the row |
| Layout.PlaceOverflows | ST7565.py:441-443 | An overflowing line shows `width` consecutive bytes of itself, starting -right bytes in, and that window lies inside the line |
| Layout.AlignedPlacement | ST7565.py:425-443 | Left alignment puts a fitting line first and right alignment puts it last. On overflow, left keeps the last `width` bytes and right keeps the first |
| Layout.ComposedLayout | ST7565.py:417-423 | The composed line is sum of widths + n - 1 columns wide. Glyph k occupies the columns from its start, and a blank column follows every glyph but the last |
| Layout.ComposedPlaced | ST7565.py:417-440 | In a row it fits, glyph k starts at left + its start column; the gaps and margins are zero |
| Layout.ComposedWidth | ST7565.py:417-424 | The composed line's width is 0 with no glyphs, else sum of widths + n - 1 |
| Layout.ComposedExample | ST7565.py:417-423 | Glyphs of widths 3 and 4 compose to 8 columns with one zero between them |
| Layout.ConcatLayout | ST7565.py:467-470 | Back-to-back 8-byte glyphs: glyph k is at bytes 8k .. 8k + 8 |
| HD44780.StartupCommands | HD44780.py:196-207 | startup sends 0x33, 0x32, 0x28, 0x0C, 0x06, 0x01 and a pause, and leaves the shadows at 0x04 (display on) and 0x02 (left to right) |
| HD44780.StartupNibbles | HD44780.py:199-200 | Over a 4-bit bus the first two commands arrive as the nibbles 3, 3, 3, 2: three 8-bit function sets, then one 4-bit set, whatever the controller's mode |
| HD44780.CursorRow | HD44780.py:303-306 | set_cursor's row: reduced with Python `%` when row >= rows; undefined (ZeroDivisionError) exactly when rows is 0 and row >= rows; kept otherwise |
| HD44780.SetCursorCommand | HD44780.py:303-306 | set_cursor succeeds exactly when its (reduced) row indexes the four-entry offset table, negative indices included, and the command always has the top bit set |
| HD44780.SetCursorWraps | HD44780.py:304-306 | For a non-negative row, set_cursor(c, r) sends the same command as set_cursor(c, r mod rows) |
| HD44780.SetCursorInRange | HD44780.py:306 | For a row of the table the command is 0x80 OR-ed with the DDRAM address col + offset[row] |
| HD44780.SetCursorInjective | HD44780.py:303-306 | On up to 4 rows and 32 columns, two positions give the same command if and only if they are the same position |
| HD44780.OffsetsApart | HD44780.py:148 | The row offsets 0x00, 0x40, 0x20, 0x60 are 0x20 apart, so columns below 0x20 never collide across rows |
| HD44780.CgramCommand | HD44780.py:239-240 | definechars' command is SETCGRAMADDR with the slot `location & 7` in bits 3..5 and nothing else |
| HD44780.CgramSlotsWrap | HD44780.py:239-240 | Two locations give the same command exactly when they are equal modulo 8; for example 9 and 1 both give 0x48 |
| HD44780.GlyphBlocks | HD44780.py:241-243 | definechars sends one block per glyph: the glyph's 8 bytes, big-endian |
| HD44780.GlyphBlocksRoundTrip | HD44780.py:241-243 | Every glyph below 2^64 is recovered from its block |
| HD44780.MessageCounts | HD44780.py:259-274 | A message that completes writes one byte per character, except the CR LF pairs, and moves to a new row once per pair |
| HD44780.MessageOk | HD44780.py:262-270 | On 1 to 4 rows, message fails exactly when its last character is '\r' (`text[i+1]` is read past the end) |
| HD44780.MessageExample | HD44780.py:259-274 | "a\r\nb" on two rows of 16: byte 'a', the cursor to row 1 column 0 (0xC0), byte 'b' |
| HD44780.MessageAsWrittenOnlyNewlines | HD44780.py:273 | As written, every character write fails, so a message completes only when it is made of CR LF pairs alone; "Hi" writes nothing and fails |
| HD44780.Lcd.constructor | HD44780.py:160-193 | The bus is initialised for protocol 6800. The backlight block runs, then the initial level is set, then startup; the shadow registers are as startup leaves them |
| HD44780.Lcd.Startup | HD44780.py:196-207 | startup appends exactly its startup transfers and resets both shadow registers |
| HD44780.Lcd.SetEntryFlag | HD44780.py:217-222 | Switching one entry-mode flag changes only that bit and resends the whole register |
| HD44780.Lcd.SetDisplayFlag | HD44780.py:225-230 | Switching one display-control flag changes only that bit and resends the whole register |
| HD44780.Lcd.Autoscroll | HD44780.py:217-222 | autoscroll switches only ENTRYSHIFT and resends the entry mode |
| HD44780.Lcd.SetLeftToRight | HD44780.py:309-311 | Only ENTRYRIGHT is set; the entry mode is resent |
| HD44780.Lcd.SetRightToLeft | HD44780.py:314-316 | Only ENTRYRIGHT is cleared; the entry mode is resent |
| HD44780.Lcd.Blink | HD44780.py:225-230 | Only BLINKON changes; the display control is resent |
| HD44780.Lcd.EnableDisplay | HD44780.py:246-251 | Only DISPLAYON changes; the display control is resent |
| HD44780.Lcd.ShowCursor | HD44780.py:332-337 | Only CURSORON changes; the display control is resent |
| HD44780.Lcd.Clear | HD44780.py:233-235 | Sends 0x01 followed by a pause; no shadow changes |
| HD44780.Lcd.Home | HD44780.py:254-256 | Sends 0x02 followed by a pause; no shadow changes |
| HD44780.Lcd.MoveCursorLeft | HD44780.py:277-278 | Sends 0x10 |
| HD44780.Lcd.MoveCursorRight | HD44780.py:281-282 | Sends 0x14 |
| HD44780.Lcd.MoveDisplayRight | HD44780.py:289-290 | Sends 0x1C |
| HD44780.Lcd.SetCursor | HD44780.py:303-306 | Succeeds exactly when SetCursorCommand is defined and then sends that one command; sends nothing where Python raises |
| HD44780.Lcd.DefineChars | HD44780.py:238-243 | The slot command, then one 8-byte big-endian block per glyph, in order |
| HD44780.Lcd.MessageStep | HD44780.py:262-273 | One pass of the message loop advances the reference MessageFrom by exactly one step |
| HD44780.Lcd.Message | HD44780.py:259-274 | message sends HOME and then exactly the transfers of MessageFrom; it reports failure exactly where Python raises |
| HD44780.Lcd.Text | HD44780.py:340-341 | Sends the first `cols` bytes of the buffer as one data block |
| HD44780.Lcd.WriteData | HD44780.py:344-345 | Sends the first n bytes of the buffer as one data block |
| HD44780.Lcd.ReadData | HD44780.py:293-295 | Clocks in n bytes, and nothing when rw is UNDEFINED (the default -1), where the C call returns -1 before any transfer; no shadow changes |
| HD44780.Lcd.ReadStatus | HD44780.py:298-300 | Reads the status register in command mode, and nothing when rw is UNDEFINED (the default -1), where the C call returns -1 before any transfer |
| HD44780.Lcd.SetBacklight | HD44780.py:319-329 | Appends exactly Backlight.LevelEffects to the host log; nothing is sent on the bus |
| ST7920.Perm | ST7920.py:414-418 | The DDRAM block of a character row is one of the 8 blocks |
| ST7920.CharAddressIsPermuted | ST7920.py:414-420 | The bit arithmetic puts row r in block {0,2,1,3,4,6,5,7}[r mod 8], 8 bytes per block, plus the column; rows wrap modulo 8 |
| ST7920.PermInvolution | ST7920.py:414-416 | The block order is its own inverse |
| ST7920.CharPositionInjective | ST7920.py:417-420 | On the 8 x 8 grid every position has its own DDRAM address below 64 and its own command |
| ST7920.GraphicPositionInjective | ST7920.py:436-450 | For x < 8 and y < 128, the vertical address is below 64 and the horizontal one below 16, and two positions give the same pair exactly when they are equal |
| ST7920.RowBits | ST7920.py:436-450 | A row below 128 is made of its 64 bit, its 32 bit and its low five bits |
| ST7920.FullCodes | ST7920.py:314-317 | The 16 x 16 codes of a line are twice as long as the line |
| ST7920.FullCodesAt | ST7920.py:314-317 | Character j sits at byte 2j + 1, after 0xA3 at byte 2j |
| ST7920.RowFor | ST7920.py:310-374 | Every buffer row a writer builds is 16 bytes |
| ST7920.HalfRowLayout | ST7920.py:349-370 | 8 x 16 writer: a fitting line sits at `left` with spaces elsewhere; an overflowing line shows 16 consecutive bytes of itself |
| ST7920.FullRowFits | ST7920.py:319-335 | 16 x 16 writer: character j's pair 0xA3, code starts at 2 * left + 2j, with spaces outside the line |
| ST7920.FullRowOverflows | ST7920.py:336-338 | An overflowing 16 x 16 line shows 16 consecutive code bytes |
| ST7920.HalfRowExample | ST7920.py:349-367 | "ab" centred in the 8 x 16 font: seven spaces, the line, seven spaces |
| ST7920.MessageRows | ST7920.py:347-370 | The first pass builds one row per line, each the row of that line |
| ST7920.RowEvents | ST7920.py:371-374 | The second pass: for row i, the cursor to column 0 of line first + i, then its 16 bytes |
| ST7920.RowTransfers | ST7920.py:371-374 | The second pass's loop sends exactly RowEvents |
| ST7920.Repeated | ST7920.py:418 | n copies of a complaint |
| ST7920.FourBitSync | ST7920.py:217-220 | The 4-bit start: n times 0x20 followed by a pause |
| ST7920.ClearGraphicEvents | ST7920.py:253-260 | Clearing from GDRAM line n on makes 3 transfers per line |
| ST7920.ClearGraphicLayout | ST7920.py:253-260 | cleargraphic writes each of the 64 GDRAM lines once, in order: its address, column 0, 32 zero bytes |
| ST7920.ClearGraphicTransfers | ST7920.py:253-260 | cleargraphic's loop sends exactly the clearing of all 64 lines |
| ST7920.Lcd.Row | ST7920.py:198 | A row of bufferc is 16 bytes |
| ST7920.Lcd.constructor | ST7920.py:156-200 | Default shadows; bus initialised for protocol 6800; the backlight block and level; buffers zeroed; then startup |
| ST7920.Lcd.CheckMode | ST7920.py:239 | The mode check prints one complaint when an operation is called in the wrong instruction set, and nothing otherwise |
| ST7920.Lcd.Command | ST7920.py:241-242 | Sends one command and records that the last transfer was a write |
| ST7920.Lcd.Startup | ST7920.py:203-224 | The reset pulse on a usable reset line. Then 0x30 on an 8-bit bus, or thirty 0x20 with functionset cleared on a 4-bit bus. Then clear, pause, display on |
| ST7920.Lcd.Close | ST7920.py:227-230 | Leaves extended mode, clears, switches the display off; never complains |
| ST7920.Lcd.Synchronise | ST7920.py:212-221 | The opening function sets of startup; the 4-bit start clears functionset |
| ST7920.Lcd.ClearChar | ST7920.py:246-250 | Basic mode: 0x01 followed by a pause |
| ST7920.Lcd.ClearGraphic | ST7920.py:253-260 | Extended mode: 32 zero bytes to each of the 64 GDRAM lines |
| ST7920.Lcd.BlinkOn | ST7920.py:238-243 | Only bit 0x01 of displaystatus changes; the register is resent |
| ST7920.Lcd.CursorOn | ST7920.py:263-268 | Only bit 0x02 of displaystatus changes; the register is resent |
| ST7920.Lcd.DisplayOn | ST7920.py:271-276 | Only bit 0x04 of displaystatus changes; the register is resent |
| ST7920.Lcd.EntryDisplay | ST7920.py:279-284 | Only bit 0x01 of the entry register changes |
| ST7920.Lcd.EntryRight | ST7920.py:287-292 | Only bit 0x02 of the entry register changes |
| ST7920.Lcd.ExtendedOn | ST7920.py:295-299 | After extendedon(v) the driver is in extended mode exactly when v; the call is valid in both modes |
| ST7920.Lcd.GraphicOn | ST7920.py:302-307 | Only bit 0x02 of functionset changes, so the mode is kept; the mode is checked before the change |
| ST7920.Lcd.ScrollOn | ST7920.py:389-393 | Extended mode: 0x03 or 0x02 |
| ST7920.Lcd.SetCharHome | ST7920.py:409-412 | Basic mode: 0x02 |
| ST7920.Lcd.SetCharPosition | ST7920.py:417-420 | Basic mode: the DDRAM command of (col, row) |
| ST7920.Lcd.SetCgPosition | ST7920.py:424-427 | Basic mode: 0x40 OR the value |
| ST7920.Lcd.SetIPosition | ST7920.py:431-434 | Extended mode: 0x40 OR the value |
| ST7920.Lcd.SetGraphicPosition | ST7920.py:446-450 | Extended mode: the vertical address command, then the horizontal one |
| ST7920.Lcd.ShiftDisplayRight | ST7920.py:453-457 | Basic mode: 0x1C or 0x18 |
| ST7920.Lcd.ShiftRight | ST7920.py:460-464 | Basic mode: 0x14 or 0x10 |
| ST7920.Lcd.Standby | ST7920.py:467-470 | Extended mode: 0x01 |
| ST7920.Lcd.ToggleReverse | ST7920.py:473-476 | Extended mode: 0x04 OR the line |
| ST7920.Lcd.ReadData | ST7920.py:377-381 | A one-byte dummy read comes first exactly when the last transfer was a write. Nothing is read when rw is UNDEFINED (the default -1), where the C call returns -1 before any transfer. The write flag is cleared either way |
| ST7920.Lcd.ReadStatus | ST7920.py:384-386 | Reads the status register, and nothing when rw is UNDEFINED (the default -1), where the C call returns -1 before any transfer |
| ST7920.Lcd.WriteData | ST7920.py:479-482 | An odd length is reported, but the data is still sent |
| ST7920.Lcd.MessageHalf | ST7920.py:346-374 | The 8 x 16 writer: see Message |
| ST7920.Lcd.MessageFull | ST7920.py:310-343 | The 16 x 16 writer: see Message |
| ST7920.Lcd.Message | ST7920.py:310-374 | Succeeds exactly for a known alignment and at most 8 lines. On success: one buffer row per line, the rest untouched, each row positioned and sent, and exactly the overflow complaints printed |
| ST7920.Lcd.FillRows | ST7920.py:347-370 | The first pass fails on an unknown alignment or a ninth line, with the complaints Python prints before it raises. Otherwise row i is the row of line i and the later rows are kept |
| ST7920.Lcd.StoreRows | ST7920.py:364-367 | Copies rows from row 0 on; the rows after them keep their bytes |
| ST7920.Lcd.SendRows | ST7920.py:371-374 | The second pass sends exactly RowEvents; it complains once per row in extended mode |
| ST7920.Lcd.SetBacklight | ST7920.py:396-406 | Appends exactly Backlight.LevelEffects to the host log |
| ST7920.ModeChecks | ST7920.py:239 | Basic-set operations complain exactly in extended mode and extended-set ones exactly in basic mode. After extendedon(v) the mode is v; graphicon never changes it |
| ST7920.StartupShape | ST7920.py:203-224 | From the default shadows: 0x30, 0x01, 0x0C on an 8-bit bus; thirty 0x20, then 0x01 and 0x0C, on a 4-bit bus |
| RA6963.CgRounding | RA6963.py:249-254 | startup rounds the generator home to a multiple of 2 KiB: an aligned address is kept, and an address in 0..0xFFFF drops to the largest multiple at or below it |
| RA6963.OffsetBlockKept | RA6963.py:249-254 | The offset register parameter `cg >> 11` is the address's 2 KiB block; the default home 0x7800 gives block 15, sent as 15, 0 |
| RA6963.StartupExample | RA6963.py:217-254 | On a 240-pixel-wide screen with the default homes, startup sends the homes, areas of 30 columns, and offset block 15 |
| RA6963.CursorBytes | RA6963.py:435-438 | setcursor's parameter 256 * y + x is sent as the bytes x, y and decodes back |
| RA6963.GlyphEvents | RA6963.py:331-334 | One data block per glyph: its 8 bytes, big-endian |
| RA6963.Glyphs | RA6963.py:331-334 | The glyphs as 8-byte big-endian blocks |
| RA6963.GlyphPayload | RA6963.py:331-334 | The auto-write stream carries the glyph blocks back to back |
| RA6963.GlyphLanding | RA6963.py:329-335 | Glyph k lands at the slot location + k: its 8 bytes are at offset 8k of the stream, which starts at the slot's address |
| RA6963.ModeSetBits | RA6963.py:359-365 | modeset replaces the low three bits with the field of OR, EXOR, AND or text attribute (0 otherwise) and keeps the other bits, the external CG bit included |
| RA6963.StripParts | RA6963.py:488 | Removing newlines distributes over concatenation, leaves no newline, and shortens the text by the number of newlines |
| RA6963.StripMisses | RA6963.py:488 | No removed byte remains, and the length drops by the number removed |
| RA6963.ScreenCodes | RA6963.py:489-490 | The screen codes have the text's length |
| RA6963.ScreenCodesRoundTrip | RA6963.py:489-490 | For printable text, adding 32 back to each code gives the text |
| RA6963.SubtractSpaces | RA6963.py:489-490 | The in-place loop succeeds exactly for printable text and then leaves the screen codes |
| RA6963.GlyphTransfers | RA6963.py:331-334 | The definechars loop sends exactly GlyphEvents |
| RA6963.Lcd.constructor | RA6963.py:168-214 | The bus is initialised for protocol 8080. The backlight block runs and the level is set; the reset line is made a high output; then startup |
| RA6963.Lcd.Startup | RA6963.py:217-254 | The reset pulse; the homes and areas; the generator home rounded down to 2 KiB |
| RA6963.Lcd.BitReset | RA6963.py:264-265 | 0xF0 OR num |
| RA6963.Lcd.BitSet | RA6963.py:268-269 | 0xF8 OR num |
| RA6963.Lcd.BlinkTime | RA6963.py:272-275 | The 16-bit parameter, then 0x50 |
| RA6963.Lcd.CgRomFont | RA6963.py:285-289 | Parameter 2 for font 1 and 3 for anything else, then the font-select command |
| RA6963.Lcd.SetAddress | RA6963.py:416-419 | The address as a 16-bit parameter, then 0x24 |
| RA6963.Lcd.TextHome | RA6963.py:455-459 | Points the address at the text home and returns it |
| RA6963.Lcd.GraphicHome | RA6963.py:352-356 | Points the address at the graphic home and returns it |
| RA6963.Lcd.CgHome | RA6963.py:278-282 | Points the address at the generator home and returns it |
| RA6963.Lcd.SetTextHome | RA6963.py:441-445 | Stores the new text home and sends it |
| RA6963.Lcd.SetGraphicHome | RA6963.py:448-452 | Stores the new graphic home and sends it |
| RA6963.Lcd.SetCursor | RA6963.py:435-438 | The position as one parameter 256 * y + x, then 0x21 |
| RA6963.Lcd.ClearAll | RA6963.py:292-305 | Zeros to the graphic area, the text area and the 2 KiB generator, each from its home in one auto-write bracket |
| RA6963.Lcd.CursorBlink | RA6963.py:308-311 | Only bit 0x01 of the display mode changes; the mode is resent |
| RA6963.Lcd.CursorDisplay | RA6963.py:314-317 | Only bit 0x02 of the display mode changes |
| RA6963.Lcd.DisplayMode | RA6963.py:338-343 | Only bits 0x04 (text) and 0x08 (graphic) change |
| RA6963.Lcd.CursorPattern | RA6963.py:325-326 | 0xA0 OR the pattern |
| RA6963.Lcd.DefineChars | RA6963.py:329-335 | The address goes to the slot past the 128 built-in glyphs; then all glyphs are sent in one auto-write bracket |
| RA6963.Lcd.ExternalCg | RA6963.py:346-349 | Only bit 0x08 of the mode set changes |
| RA6963.Lcd.ModeSet | RA6963.py:359-365 | The mode set becomes ModeSetValue and is resent |
| RA6963.Lcd.ReadData | RA6963.py:368-371 | n bytes inside an auto-read bracket. When rd is UNDEFINED (the default -1) only the two bracket commands go out |
| RA6963.Lcd.ReadIncrement | RA6963.py:381-385 | 0xC1, then one byte read; only the command when rd is UNDEFINED (the default -1) |
| RA6963.Lcd.ReadNonVariable | RA6963.py:393-397 | 0xC4 (the code the source uses), then one byte read; only the command when rd is UNDEFINED |
| RA6963.Lcd.ReadStatus | RA6963.py:388-390 | Reads the status register, and nothing when rd is UNDEFINED (the default -1), where readregister returns -1 before any transfer |
| RA6963.Lcd.ScreenCopy | RA6963.py:400-401 | 0xE8 |
| RA6963.Lcd.ScreenPeek | RA6963.py:404-408 | 0xE0, then one byte read; only the command when rd is UNDEFINED |
| RA6963.Lcd.WriteData | RA6963.py:462-465 | The bytes inside an auto-write bracket |
| RA6963.Lcd.WriteDecrement | RA6963.py:468-471 | One byte, then 0xC2 |
| RA6963.Lcd.WriteIncrement | RA6963.py:474-477 | One byte, then 0xC0 |
| RA6963.Lcd.WriteNonVariable | RA6963.py:480-483 | One byte, then 0xC4 |
| RA6963.Lcd.WriteText | RA6963.py:486-494 | Succeeds exactly when the text without newlines is printable. It then sends that text's screen codes from the text home in one auto-write bracket; otherwise it sends nothing |
| RA6963.Lcd.SetBacklight | RA6963.py:422-432 | Appends exactly Backlight.LevelEffects to the host log |
| ST7565.GuardAsWritten | ST7565.py:322-325 | movecursor's guard never rejects a non-negative argument (the bound itself included) and does reject -1 |
| ST7565.PageBytes | ST7565.py:326 | The page command of pages 0..7 is 0xB7 - page |
| ST7565.ColumnBytes | ST7565.py:327-328 | The two column commands carry the nibbles of x, and together they recover x modulo 256 |
| ST7565.NibbleSplit | ST7565.py:327-328 | 16 * high nibble + low nibble is x modulo 256 |
| ST7565.CursorAtColumnZero | ST7565.py:320-329 | Column 0 of a non-negative page always gets its three cursor bytes, offset by the column start |
| ST7565.RowsToPages | ST7565.py:445-447 | From a non-negative first page, row i goes to page first + i at column 0: one cursor transfer and one data block per row |
| ST7565.RowTransfers | ST7565.py:445-447 | The loop of the second pass sends exactly RowEvents |
| ST7565.ZeroRows | ST7565.py:294-297 | cleardisplay sends n pages of pixx zero columns |
| ST7565.LineGlyphs | ST7565.py:419-421 | A line has glyphs exactly when each of its characters is in the font (no KeyError), and glyph j is the font's entry for character j |
| ST7565.ConcatWidth | ST7565.py:468-470 | Back-to-back 8-column glyphs are 8 columns each |
| ST7565.RowOf | ST7565.py:412-482 | Every row a writer builds is exactly pixx columns |
| ST7565.MonoRow | ST7565.py:450-478 | Every message_m row is exactly pixx columns |
| ST7565.ProportionalRowOf | ST7565.py:412-443 | Every message row is exactly pixx columns |
| ST7565.RowsOf | ST7565.py:414-443 | The rows of the lines a writer gets through, in order: each is the row of its line, and the first line that fails ends the run |
| ST7565.Leading | ST7565.py:415 | The values before the first failure, in order |
| ST7565.ProportionalRow | ST7565.py:412-443 | A message row is the composed line placed with the alignment's margins; an overflowing non-empty line is shorter than the 2 * pixx line buffer |
| ST7565.ProportionalRowFits | ST7565.py:424-440 | A line that fits, under a known alignment, gets its row: the composed line between non-negative zero margins |
| ST7565.MonoRowFits | ST7565.py:454-475 | In message_m, character j's 8 columns sit at 8 * (left + j), where left is the margin in characters |
| ST7565.Lcd.Row | ST7565.py:255 | A buffer page is pixx columns |
| ST7565.Lcd.constructor | ST7565.py:210-261 | A0 and reset become outputs; the backlight block and level; a zeroed buffer; reset high; then startup in the left-to-right orientation |
| ST7565.Lcd.Startup | ST7565.py:264-286 | The reset pulse, the power-up commands, then a cleared screen |
| ST7565.Lcd.Configure | ST7565.py:270-285 | Bias 1/9, normal orientations, start line 0, the three power stages with pauses, resistor ratio, display on, all points off, contrast 0x19 |
| ST7565.Lcd.Close | ST7565.py:289-291 | Clears the screen, then sleep mode |
| ST7565.Lcd.ClearDisplay | ST7565.py:294-297 | pixx zero columns to every page, from column 0 |
| ST7565.Lcd.DisplayAllPoints | ST7565.py:300-302 | 0xA5 or 0xA4 |
| ST7565.Lcd.DisplayOn | ST7565.py:305-307 | 0xAF or 0xAE |
| ST7565.Lcd.DisplayReverse | ST7565.py:310-312 | 0xA7 or 0xA6 |
| ST7565.Lcd.HorizontalReverse | ST7565.py:315-317 | 0xC8 or 0xC0 |
| ST7565.Lcd.MoveCursor | ST7565.py:320-329 | The page and column commands, with the column shifted by the current offset |
| ST7565.Lcd.NormalMode | ST7565.py:332-335 | All points off, display on, static indicator on |
| ST7565.Lcd.ReadModifyWrite | ST7565.py:338-340 | 0xE0 or 0xEE |
| ST7565.Lcd.SetContrast | ST7565.py:356-359 | The electronic volume command and six bits of the level, in one transfer |
| ST7565.Lcd.SetDisplayStartLine | ST7565.py:362-363 | 0x40 OR six bits of the line |
| ST7565.Lcd.SetLcdBias | ST7565.py:366-369 | 0xA2 for 9, 0xA3 for 7, nothing sent otherwise |
| ST7565.Lcd.SleepMode | ST7565.py:372-375 | Static indicator off, display off, all points on |
| ST7565.Lcd.StandbyMode | ST7565.py:378-381 | Static indicator on, display off, all points on |
| ST7565.Lcd.StaticIndicatorOn | ST7565.py:384-390 | On: 0xAD with the register byte in one transfer; off: 0xAC |
| ST7565.Lcd.VerticalReverse | ST7565.py:393-399 | The segment direction, and the column offset that goes with it |
| ST7565.Lcd.WriteData | ST7565.py:402-404 | The bytes as one data transfer (A0 high) |
| ST7565.Lcd.WriteCommands | ST7565.py:407-409 | The bytes as one command transfer (A0 low) |
| ST7565.Lcd.Message | ST7565.py:412-447 | See WriteMessage, proportional font |
| ST7565.Lcd.MessageM | ST7565.py:450-482 | See WriteMessage, monospaced font |
| ST7565.Lcd.WriteMessage | ST7565.py:412-482 | Succeeds exactly when every line gets a row and there are at most pixy / 8 lines. The pages reached hold their rows and the others keep their bytes; on success each page is positioned and sent |
| ST7565.Lcd.StoreRows | ST7565.py:437-443 | Copies rows from page 0 on; the pages after them keep their bytes |
| ST7565.Lcd.SetBacklight | ST7565.py:343-353 | Appends exactly Backlight.LevelEffects to the host log |

## Findings

| source | as written | input that shows it | evidently intended | confidence | as-written member | corrected member |
|---|---|---|---|---|---|---|
| HD44780.py:273 | `(c_ubyte)(*ord(text[i]))` unpacks an int, which raises TypeError, so `message` fails at the first ordinary character | `message("Hi")` | one byte per character, the character's code | high, not executed | HD44780.MessageAsWrittenOnlyNewlines | HD44780.MessageCounts |

In these places the code's behaviour is easy to misread; the model follows the code:

- Centring puts the odd blank unit on the left (`addl = add - add//2`), as Layout.CentreOddLeft states.
- The ST7920 mode checks only print; the command is sent anyway.
- The PWM duty is truncated, not rounded (Backlight.DutyTruncates).
- In ST7565 `movecursor`, the bounds check `x >= self._pixx | x < 0` parses as a chained comparison with `|` binding tighter. It never rejects a non-negative argument (ST7565.GuardAsWritten), so the model sends the cursor commands for any non-negative position.

## Left out

- Timing: every `time.sleep`, `usleep` and the `WAIT`/`SET` busy-waits on the monotonic clock become `Delay` or `Settle` entries, or are omitted inside bus cycles. The five timing parameters of `initialise` are not stored.
- Hardware access: the mmap of `/dev/gpiomem`, `gpioInitialise`, `gpioSetPullUpDown`, `gpioRead`, and loading the shared library through ctypes are not modelled. The GPIO register block is an array of 32-bit words.
- The SPI bus (`spi.c`, `spiInitialise`, the SPI mode and frequency) is not part of this model. An ST7565 transfer is one `Cmds` or `Data` event that records the A0 level.
- `deinitialise` (a `free`) and the PWM `unexport` in each driver's `close` are left out. The directory checks of the sysfs PWM interface are boolean parameters.
- Floating point: backlight levels are reals, and `int(x)` is truncation (Backlight.Trunc).
- Console output is dropped, except the ST7920's mode, alignment, overflow and odd-length complaints. The `printed` log keeps those without the operation's name or the rejected alignment character; an overflow keeps its line. Dropped: the backlight block's 'PWM not initialised.' and 'GPIO%d not PWM hardware pin.' in every driver, the ST7920 included; RA6963's 'Specified CG address is wrong.' on rounding; and ST7565's 'Bias error.', 'Wrong alignment' and 'Overflow text'.
- Return values of reads: the driver reads log `Read`/`Status` transfers, or none when rw/rd is UNDEFINED. The bytes and the -1 status returned come from Parallel.ReadParallel, Parallel.ReadData and Parallel.ReadRegister, which are not wired into the driver logs.
- HD44780 `move_displayleft` calls `writebyte`, which is not defined anywhere, so it always raises NameError; it has no model.
- HD44780 and RA6963 `close`: they only unexport the PWM channel and call `deinitialise`, both left out, so neither has a member. ST7920.Lcd.Close leaves out the same two steps.
- RA6963 `readdecrement`, `cursormove` and `screenreverse` are not modelled. `readdecrement` names `LCD_DATAREADDECREMENT`, which is not defined (only `LCD_DATAEREADDECREMENT` is), so it always raises NameError. `cursormove` sends 0x60 or 0x61 and then stores the return value of `writecommand`, a `void` C function called with ctypes' default `int` result, in the display-mode shadow, which leaves that shadow unspecified. `screenreverse` passes two extra arguments, which a `cdll` function accepts, so both branches send 0xD0.
- RA6963 shares the opcodes 0xC2/0xC4 between its read and write variants exactly as the source does; the controller's datasheet values are not checked.
- RA6963 `clearall` copies a zero buffer sized from the whole screen. The model sends the number of zero bytes each step asks for, regardless of the numpy buffer's actual size.
- RA6963 `writetext` assumes Python 2, where `bytearray` of a str and `str(bytearray)` are byte copies. Under Python 3 it raises TypeError at its first line and sends nothing: `bytearray` of a str needs an encoding, and `bytes.replace` rejects str arguments.
- ST7920 `message_half` and `message_full` take the text as a byte string, one byte per character, as under Python 2. Under Python 3, `message_half` raises TypeError at `numpy.frombuffer` of a str during its first pass, before anything is sent. `message_full` would take characters whose `ord` exceeds 255, which the model's byte text cannot hold.
- RA6963.Lcd.WriteText: after a failing byte, the bytes before it are already reduced in the local buffer. Nothing is sent, so only the failure is modelled.
- ST7920 `bufferg` (the graphic buffer) is never used by the driver and is left out.
- ST7565 fonts: the ASCII font table is a parameter `map<char, seq<bv8>>`. `message_m` uses `ASCII_M`, which is not defined in the source, so the monospaced font is a parameter too.
- numpy `uint8` stores are the value modulo 256 (Bus.ToByte). A message row that overflows the numpy buffer, or a line beyond the buffer's pages, makes the writer fail, as Python's IndexError does.
- Parallel.WriteParallel and Parallel.ReadParallel cover the data cycles only. The switch of the data lines to outputs before a write and back to inputs after it is not part of WriteParallel; Parallel.SetModes models that loop on its own. The 6800 read/write line raised before a read is not part of ReadParallel; Parallel.ReadSelect states it.
- Bus.IntOr is Python's `|` on unbounded integers; C integer widths appear only in the `Parallel` module, where GPIO words are 32 bits.
- HD44780.Lcd.Message: models the character write as evidently intended (one byte per character), not the TypeError the source raises (see Findings).
