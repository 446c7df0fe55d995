/**
 * The day/night clock and the lighting ramps. The clock advances by
 * `daySpeed * deltaTime` hours and wraps into [0, 24). Intensity and colours
 * are piecewise-linear functions of the sun's height (the y component of the
 * sun direction, whose trigonometry is not modelled and is taken as input).
 */
module Environment {
  import opened Glm

  const HoursPerDay: real := 24.0

  /** The hour `t` wrapped into [0, 24): `t` minus a whole number of days. */
  function WrapHours(t: real): (r: real)
    ensures 0.0 <= r < HoursPerDay
  {
    var days := (t / HoursPerDay).Floor;
    assert days as real <= t / HoursPerDay < days as real + 1.0;
    t - HoursPerDay * days as real
  }

  /** `d` hours are a whole number of days. */
  predicate WholeDays(d: real) {
    (d / HoursPerDay).Floor as real == d / HoursPerDay
  }

  /** Wrapping differs from its input by a whole number of days and leaves [0, 24) alone. */
  lemma WrapHoursCongruent(t: real)
    ensures WholeDays(t - WrapHours(t))
    ensures 0.0 <= t < HoursPerDay ==> WrapHours(t) == t
  {
    var days := (t / HoursPerDay).Floor;
    assert (t - WrapHours(t)) / HoursPerDay == days as real;
    if 0.0 <= t < HoursPerDay {
      assert 0.0 <= t / HoursPerDay < 1.0;
      assert days == 0;
    }
  }

  /** Adding a whole number of days does not change the wrapped hour. */
  lemma WrapHoursShift(t: real, k: int)
    ensures WrapHours(t + HoursPerDay * k as real) == WrapHours(t)
  {
    var q := t / HoursPerDay;
    assert (t + HoursPerDay * k as real) / HoursPerDay == q + k as real;
    assert (q + k as real).Floor == q.Floor + k;
  }

  class Lighting {
    var timeOfDay: real
    var daySpeed: real
    var autoAdvance: bool

    constructor ()
      ensures timeOfDay == 12.0 && daySpeed == 0.1 && !autoAdvance
    {
      timeOfDay := 12.0;
      daySpeed := 0.1;
      autoAdvance := false;
    }

    /** Advances the clock when auto-advance is on and wraps it into [0, 24). */
    method Update(deltaTime: real)
      modifies this
      ensures daySpeed == old(daySpeed) && autoAdvance == old(autoAdvance)
      ensures !autoAdvance ==> timeOfDay == old(timeOfDay)
      ensures autoAdvance ==> timeOfDay == WrapHours(old(timeOfDay) + old(daySpeed) * deltaTime)
    {
      if autoAdvance {
        var start := timeOfDay + daySpeed * deltaTime;
        timeOfDay := start;
        while timeOfDay >= HoursPerDay
          invariant daySpeed == old(daySpeed) && autoAdvance == old(autoAdvance)
          invariant WrapHours(timeOfDay) == WrapHours(start)
          decreases timeOfDay.Floor
        {
          WrapHoursShift(timeOfDay - HoursPerDay, 1);
          timeOfDay := timeOfDay - HoursPerDay;
        }
        while timeOfDay < 0.0
          invariant daySpeed == old(daySpeed) && autoAdvance == old(autoAdvance)
          invariant WrapHours(timeOfDay) == WrapHours(start)
          invariant timeOfDay < HoursPerDay
          decreases (-timeOfDay).Floor
        {
          WrapHoursShift(timeOfDay, 1);
          timeOfDay := timeOfDay + HoursPerDay;
        }
        WrapHoursCongruent(timeOfDay);
      }
    }
  }

  /** The light's strength: 1 above 0.2, fading to 0.5 at the horizon and to 0.1 at -0.2 and below. */
  function SunIntensity(sunHeight: real): (r: real)
    ensures 0.1 <= r <= 1.0
  {
    if sunHeight > 0.2 then 1.0
    else if sunHeight > 0.0 then 0.5 + 0.5 * (sunHeight / 0.2)
    else if sunHeight > -0.2 then 0.1 + 0.4 * ((sunHeight + 0.2) / 0.2)
    else 0.1
  }

  /** Intensity never falls as the sun rises, and rises at most 2.5 per unit of height, so it has no jumps. */
  lemma SunIntensityMonotoneContinuous(a: real, b: real)
    requires a <= b
    ensures SunIntensity(a) <= SunIntensity(b) <= SunIntensity(a) + 2.5 * (b - a)
  {
  }

  const NoonSun: Vec3 := Vec3(1.0, 1.0, 0.95)
  const SunsetSun: Vec3 := Vec3(1.0, 0.6, 0.3)
  const NightSun: Vec3 := Vec3(0.2, 0.2, 0.4)

  /** Noon colour above 0.3, night colour at or below -0.3, linear mixes through sunset between. */
  function SunColor(sunHeight: real): (r: Vec3)
    ensures sunHeight > 0.3 ==> r == NoonSun
    ensures sunHeight <= -0.3 ==> r == NightSun
  {
    if sunHeight > 0.3 then NoonSun
    else if sunHeight > 0.0 then Mix3(SunsetSun, NoonSun, sunHeight / 0.3)
    else if sunHeight > -0.3 then Mix3(NightSun, SunsetSun, (sunHeight + 0.3) / 0.3)
    else NightSun
  }

  const DayAmbient: Vec3 := Vec3(0.4, 0.45, 0.5)
  const SunsetAmbient: Vec3 := Vec3(0.3, 0.25, 0.2)
  const NightAmbient: Vec3 := Vec3(0.05, 0.05, 0.1)

  /** Day ambient above 0.2, night ambient at or below -0.2, linear mixes through sunset between. */
  function AmbientColor(sunHeight: real): (r: Vec3)
    ensures sunHeight > 0.2 ==> r == DayAmbient
    ensures sunHeight <= -0.2 ==> r == NightAmbient
  {
    if sunHeight > 0.2 then DayAmbient
    else if sunHeight > 0.0 then Mix3(SunsetAmbient, DayAmbient, sunHeight / 0.2)
    else if sunHeight > -0.2 then Mix3(NightAmbient, SunsetAmbient, (sunHeight + 0.2) / 0.2)
    else NightAmbient
  }

  const DaySky: Vec3 := Vec3(0.5, 0.7, 1.0)
  const SunsetSky: Vec3 := Vec3(1.0, 0.5, 0.2)
  const TwilightSky: Vec3 := Vec3(0.3, 0.2, 0.4)
  const NightSky: Vec3 := Vec3(0.02, 0.02, 0.08)

  /** Five bands split at 0.3, 0, -0.2 and -0.5: day, sunset gradient, twilight, deep twilight, night. */
  function SkyColor(sunHeight: real): (r: Vec3)
    ensures sunHeight > 0.3 ==> r == DaySky
    ensures sunHeight <= -0.5 ==> r == NightSky
  {
    if sunHeight > 0.3 then DaySky
    else if sunHeight > 0.0 then Mix3(SunsetSky, DaySky, sunHeight / 0.3)
    else if sunHeight > -0.2 then Mix3(TwilightSky, SunsetSky, (sunHeight + 0.2) / 0.2)
    else if sunHeight > -0.5 then Mix3(NightSky, TwilightSky, (sunHeight + 0.5) / 0.3)
    else NightSky
  }

  function Abs(x: real): real { if x >= 0.0 then x else -x }

  /** Each component changes by at most `bound * |b - a|` between heights a and b. */
  predicate CloseColours(c: Vec3, d: Vec3, bound: real, a: real, b: real) {
    && Abs(c.x - d.x) <= bound * Abs(b - a)
    && Abs(c.y - d.y) <= bound * Abs(b - a)
    && Abs(c.z - d.z) <= bound * Abs(b - a)
  }

  /** The sun colour has no jumps: it is Lipschitz in the sun height with constant 3. */
  lemma SunColorContinuous(a: real, b: real)
    ensures CloseColours(SunColor(a), SunColor(b), 3.0, a, b)
  {
  }

  /** The ambient colour has no jumps: it is Lipschitz in the sun height with constant 2. */
  lemma AmbientColorContinuous(a: real, b: real)
    ensures CloseColours(AmbientColor(a), AmbientColor(b), 2.0, a, b)
  {
  }

  /** The sky colour has no jumps: it is Lipschitz in the sun height with constant 4. */
  lemma SkyColorContinuous(a: real, b: real)
    ensures CloseColours(SkyColor(a), SkyColor(b), 4.0, a, b)
  {
  }
}
