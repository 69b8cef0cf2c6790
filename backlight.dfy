/**
 * The backlight block that each of the four driver constructors carries,
 * together with their `setbacklight` method.  The block is the same text in
 * HD44780.py, ST7920.py, RA6963.py and ST7565.py; it is modelled once here.
 *
 * The two directory checks of the sysfs PWM interface are parameters:
 * `pwmPresent` for the PWM chip directory and `chanPresent` for the channel
 * directory.  The level is a real number; the duty value written is
 * `int(level * PWMPER)`, which truncates toward zero.
 */
module Backlight {
  import opened Bus

  const PWMPER: int := 100000   // PWM period in nanoseconds
  const PI_OUTPUT: int := 1
  const PI_ALT0: int := 4
  const PI_ALT5: int := 2

  /** A backlight pin is only used when it is a GPIO number 0..27. */
  predicate Usable(pin: int)
  {
    0 <= pin <= 27
  }

  /** The hardware PWM channel of a pin. */
  function PwmChannel(pin: int): (r: Option<nat>)
    ensures r.Some? <==> pin == 12 || pin == 13 || pin == 18 || pin == 19
    ensures r.Some? ==> r.value == (if pin == 12 || pin == 18 then 0 else 1)
  {
    if pin == 12 || pin == 18 then Some(0)
    else if pin == 13 || pin == 19 then Some(1)
    else None
  }

  /** The alternative pin function that routes a PWM channel to a pin. */
  function PwmMode(pin: int): int
  {
    if pin == 12 || pin == 13 then PI_ALT0 else PI_ALT5
  }

  /** `self._bl` after the constructor's backlight block. */
  function SetupPin(bl: int, pwm: bool, pwmPresent: bool): (r: int)
    ensures r == bl || r == -1
    ensures !pwm || !Usable(bl) ==> r == bl
    ensures pwm && Usable(bl) ==> (r == bl <==> pwmPresent && PwmChannel(bl).Some?)
  {
    if Usable(bl) && pwm then
      var bl1 := if pwmPresent then bl else -1;
      if PwmChannel(bl1).Some? then bl1 else -1
    else bl
  }

  /** The host effects of the constructor's backlight block, before the initial setbacklight. */
  function SetupEffects(bl: int, pwm: bool, pwmPresent: bool, chanPresent: bool): seq<HostEffect>
  {
    if !Usable(bl) then []
    else if !pwm then [SetMode(bl, PI_OUTPUT)]
    else
      var pin := SetupPin(bl, pwm, pwmPresent);
      match PwmChannel(pin)
      case None => []
      case Some(chan) =>
        [SetMode(pin, PwmMode(pin))]
        + (if chanPresent then [] else [PwmExport(chan)])
        + [Settle, PwmPeriod(chan, PWMPER)]
  }

  /** Python's `int(x)`: truncation toward zero. */
  function Trunc(x: real): (r: int)
    ensures x >= 0.0 ==> r as real <= x < r as real + 1.0
    ensures x < 0.0 ==> r as real - 1.0 < x <= r as real
  {
    if x >= 0.0 then x.Floor else -((-x).Floor)
  }

  /** The duty cycle written for a level: `int(level * PWMPER)`. */
  function Duty(level: real): int
  {
    Trunc(level * PWMPER as real)
  }

  /**
   * The pin must have a PWM channel when PWM is in use; the constructor
   * guarantees that (see SetupKeepsChannel).
   */
  predicate Configured(bl: int, pwm: bool)
  {
    !pwm || !Usable(bl) || PwmChannel(bl).Some?
  }

  /** The host effects of `setbacklight(level)`. */
  function LevelEffects(bl: int, pwm: bool, level: real): (r: seq<HostEffect>)
    requires Configured(bl, pwm)
    ensures r == [] <==> !Usable(bl)
    ensures Usable(bl) && !pwm ==> r == [Write(bl, level > 0.0)]
    ensures Usable(bl) && pwm ==> |r| == (if level > 0.0 then 2 else 1)
    ensures Usable(bl) && pwm ==> r[|r| - 1] == PwmEnable(PwmChannel(bl).value, level > 0.0)
    ensures Usable(bl) && pwm && level > 0.0 ==> r[0] == PwmDuty(PwmChannel(bl).value, Duty(level))
  {
    if !Usable(bl) then []
    else if !pwm then [Write(bl, level > 0.0)]
    else
      var chan := PwmChannel(bl).value;
      if level > 0.0 then [PwmDuty(chan, Duty(level)), PwmEnable(chan, true)]
      else [PwmEnable(chan, false)]
  }

  /** Whatever the sysfs state, the pin kept by the constructor can be driven by setbacklight. */
  lemma SetupKeepsChannel(bl: int, pwm: bool, pwmPresent: bool)
    ensures Configured(SetupPin(bl, pwm, pwmPresent), pwm)
  {
  }

  /** The duty value is the truncated, not the rounded, product: it never exceeds level * PWMPER. */
  lemma DutyTruncates(level: real)
    requires 0.0 < level
    ensures 0 <= Duty(level)
    ensures level <= 1.0 ==> Duty(level) <= PWMPER
    ensures Duty(level) as real <= level * 100000.0 < Duty(level) as real + 1.0
  {
  }

  /** For example, level 0.5 gives duty 50000 and a level just below 1 never reaches the period. */
  lemma DutyExamples()
    ensures Duty(0.5) == 50000
    ensures Duty(0.999999) == 99999
    ensures Duty(0.0000001) == 0
  {
  }
}
