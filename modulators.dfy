/** RTPC entries and the four modulator builders (`ADSR`, `LFO`, `Random`,
  * `RandomTimeCurve`), and the selector `Modulation` that narrows a value range
  * and picks one of them. */
module Modulators {
  import opened Draws
  import opened Curves

  /** The `@ControlInput` of an RTPC entry, one constructor per modulator kind. */
  datatype ControlInput =
    | EnvelopeInput(attack: real, autoRelease: bool, stopPlayback: bool, decay: real, release: real, sustain: real)
    | LfoInput(lfoAttack: real, depth: real, frequency: real, waveform: int, pwm: real)
    | RandomInput(waveform: int, frequency: real)
    | TimeInput(duration: real, stopPlayback: bool)
  {
    /** The object type the authoring service creates for this input. */
    function TypeName(): string {
      match this
      case EnvelopeInput(_, _, _, _, _, _) => "ModulatorEnvelope"
      case LfoInput(_, _, _, _, _) => "ModulatorLfo"
      case RandomInput(_, _) => "ModulatorLfo"
      case TimeInput(_, _) => "ModulatorTime"
    }

    /** The `name` the generator gives the modulator object. */
    function Name(): string {
      match this
      case EnvelopeInput(_, _, _, _, _, _) => "ENV"
      case LfoInput(_, _, _, _, _) => "LFO"
      case RandomInput(_, _) => "RAND"
      case TimeInput(_, _) => "TimeMod"
    }

    /** The right end of the curve's `x` domain: a time curve is keyed by time
      * over `[0, duration]`, every other modulator by its normalised output in `[0, 1]`. */
    function XMax(): real {
      if TimeInput? then duration else 1.0
    }
  }

  /** One RTPC entry: `{"@Curve": {"points": curve}, "@PropertyName": …, "@ControlInput": …}`. */
  datatype Rtpc = Rtpc(curve: seq<Point>, propertyName: string, control: ControlInput)

  /** The invariant every generated RTPC entry keeps: bound to `property`, a
    * curve over its modulator's domain, every curve value inside `[y_min, y_max]`. */
  predicate WellFormed(m: Rtpc, property: string, y_min: real, y_max: real) {
    && m.propertyName == property
    && IsCurve(m.curve, 0.0, m.control.XMax())
    && WithinRange(m.curve, y_min, y_max)
  }

  /** The time a timed modulator runs equals `duration`: an envelope's phases
    * add up to it and a time curve's duration is it. Free-running LFOs are not timed. */
  predicate FitsDuration(m: Rtpc, duration: real) {
    match m.control
    case EnvelopeInput(a, _, _, d, r, s) => a + d + s + r == duration
    case TimeInput(t, _) => t == duration
    case _ => true
  }

  /** The two-point curve the envelope and LFO builders share: normalised
    * output 0 maps to `y_min`, 1 to `y_max`. */
  function UnitRamp(y_min: real, y_max: real): (c: seq<Point>)
    ensures |c| == 2 && IsCurve(c, 0.0, 1.0) && WithinRange(c, y_min, y_max)
    ensures c[0].y == y_min && c[1].y == y_max
  {
    [Point(0.0, y_min, Linear), Point(1.0, y_max, Linear)]
  }

  /** `ADSR(property, a, d, s, r, y_min, y_max, stop)`: an envelope whose
    * auto-release is always on. */
  function Adsr(property: string, a: real, d: real, s: real, r: real, y_min: real, y_max: real, stop: bool): (m: Rtpc)
    ensures WellFormed(m, property, y_min, y_max)
    ensures m.curve[0].y == y_min && m.curve[|m.curve| - 1].y == y_max && |m.curve| == 2
    ensures m.control.EnvelopeInput? && m.control.autoRelease && m.control.stopPlayback == stop
    ensures m.control.attack == a && m.control.decay == d && m.control.sustain == s && m.control.release == r
    ensures FitsDuration(m, a + d + s + r)
  {
    Rtpc(UnitRamp(y_min, y_max), property, EnvelopeInput(a, true, stop, d, r, s))
  }

  /** The draws `LFO` makes: `uniform(0, 100)` depth, `randrange(0, 6)` waveform,
    * `uniform(10, 90)` pulse width. */
  datatype LfoDraws = LfoDraws(depth: Fraction, waveform: int, pwm: Fraction) {
    predicate Valid() {
      0 <= waveform < 6
    }
  }

  /** `LFO(property, freq, y_min, y_max)`: an oscillator with no attack. */
  function Lfo(property: string, freq: real, y_min: real, y_max: real, d: LfoDraws): (m: Rtpc)
    requires d.Valid()
    ensures WellFormed(m, property, y_min, y_max)
    ensures m.curve[0].y == y_min && m.curve[|m.curve| - 1].y == y_max && |m.curve| == 2
    ensures m.control.LfoInput? && m.control.lfoAttack == 0.0 && m.control.frequency == freq
    ensures 0.0 <= m.control.depth <= 100.0
    ensures 0 <= m.control.waveform < 6
    ensures 10.0 <= m.control.pwm <= 90.0
  {
    Rtpc(UnitRamp(y_min, y_max), property,
      LfoInput(0.0, Uniform(0.0, 100.0, d.depth), freq, d.waveform, Uniform(10.0, 90.0, d.pwm)))
  }

  /** `Random(property, y_min, y_max)`: an LFO fixed to the random waveform (5)
    * at 0.01 Hz. */
  function Random(property: string, y_min: real, y_max: real): (m: Rtpc)
    ensures WellFormed(m, property, y_min, y_max)
    ensures m.curve[0].y == y_min && m.curve[|m.curve| - 1].y == y_max && |m.curve| == 2
    ensures m.control.RandomInput? && m.control.waveform == 5 && m.control.frequency == 0.01
  {
    Rtpc(UnitRamp(y_min, y_max), property, RandomInput(5, 0.01))
  }

  /** `RandomTimeCurve(property, duration, y_min, y_max, count)`: a time
    * modulator over `[0, duration]` with a sampled curve that does not stop playback. */
  function RandomTimeCurve(property: string, duration: real, y_min: real, y_max: real, count: int, d: PointDraws): (m: Rtpc)
    requires d.Fits(count)
    ensures m.propertyName == property
    ensures |m.curve| == if count >= 2 then count else 2
    ensures WithinRange(m.curve, y_min, y_max)
    ensures 0.0 <= duration ==> WellFormed(m, property, y_min, y_max)
    ensures m.control.TimeInput? && m.control.duration == duration && !m.control.stopPlayback
  {
    var points := SampledPoints(0.0, duration, y_min, y_max, count, d);
    Rtpc(points, property, TimeInput(duration, false))
  }

  // ---------------------------------------------------------------------------
  // Modulation

  /** The range narrowing at the head of `Modulation`: the lower bound moves up
    * by `start_ratio` of the range, then the upper bound moves down by a random
    * part of what is left above the new lower bound. Returns `(y_min', y_max')`. */
  function Narrow(y_min: real, y_max: real, startRatio: Fraction, span: Fraction): (r: (real, real))
    ensures y_min <= y_max ==> y_min <= r.0 <= r.1 <= y_max
    ensures y_max <= y_min ==> y_max <= r.1 <= r.0 <= y_min
    ensures startRatio == 0.0 ==> r.0 == y_min
  {
    var range := y_max - y_min;
    var lo := y_min + range * startRatio;
    var hi := y_max - range * (1.0 - startRatio) * span;
    NarrowNested(y_min, y_max, startRatio, span, lo, hi);
    (lo, hi)
  }

  lemma NarrowNested(y_min: real, y_max: real, s: Fraction, u: Fraction, lo: real, hi: real)
    requires lo == y_min + (y_max - y_min) * s
    requires hi == y_max - (y_max - y_min) * (1.0 - s) * u
    ensures y_min <= y_max ==> y_min <= lo <= hi <= y_max
    ensures y_max <= y_min ==> y_max <= hi <= lo <= y_min
    ensures s == 0.0 ==> lo == y_min
  {
    var w := y_max - y_min;
    if y_min <= y_max {
      ScaledTwiceBounds(w, s, u, w * s, w * (1.0 - s) * u);
    } else {
      var v := -w;
      assert v * s == -(w * s);
      assert v * (1.0 - s) * u == -(w * (1.0 - s) * u);
      ScaledTwiceBounds(v, s, u, v * s, v * (1.0 - s) * u);
    }
    ScaledFractionBounds(w, s, w * s);
  }

  /** A value inside a range nested in `[y_min, y_max]` (same orientation) is
    * inside `[y_min, y_max]`. */
  lemma WithinNested(c: seq<Point>, y_min: real, y_max: real, lo: real, hi: real)
    requires y_min <= y_max ==> y_min <= lo <= hi <= y_max
    requires y_max <= y_min ==> y_max <= hi <= lo <= y_min
    requires WithinRange(c, lo, hi)
    ensures WithinRange(c, y_min, y_max)
  {
    forall k | 0 <= k < |c| ensures Between(y_min, y_max, c[k].y) {
      assert Between(lo, hi, c[k].y);
    }
  }

  /** The draws `Modulation` makes: `randrange(0, 4)` for the kind, `uniform(0, 1)`
    * twice for the narrowing, then those of the chosen kind: `randrange(2, 9)`
    * points and their draws for a time curve, `uniform(0.01, 30)` and the LFO's
    * own draws for an LFO, `uniform(0, duration)` for an envelope. */
  datatype ModulationDraws = ModulationDraws(
    pick: int, startRatio: Fraction, span: Fraction,
    count: int, points: PointDraws,
    frequency: Fraction, lfo: LfoDraws,
    attack: Fraction)
  {
    predicate Valid() {
      && 0 <= pick < 4
      && 2 <= count < 9 && points.Fits(count)
      && lfo.Valid()
    }
  }

  /** `Modulation(property, duration, y_min, y_max)`: narrows the range, then
    * builds a time curve (pick 0), a random LFO (1), an LFO (2) or an envelope
    * whose attack and release fill `duration` (3). */
  function Modulation(property: string, duration: real, y_min: real, y_max: real, d: ModulationDraws): (m: Rtpc)
    requires d.Valid()
    ensures m.propertyName == property
    ensures WithinRange(m.curve, Narrow(y_min, y_max, d.startRatio, d.span).0, Narrow(y_min, y_max, d.startRatio, d.span).1)
    ensures WithinRange(m.curve, y_min, y_max)
    ensures 0.0 <= duration ==> WellFormed(m, property, y_min, y_max)
    ensures FitsDuration(m, duration)
    ensures d.pick == 0 <==> m.control.TimeInput?
    ensures d.pick == 1 <==> m.control.RandomInput?
    ensures d.pick == 2 <==> m.control.LfoInput?
    ensures d.pick == 3 <==> m.control.EnvelopeInput?
    ensures m.control.TimeInput? ==> 2 <= |m.curve| <= 8 && !m.control.stopPlayback
    ensures m.control.LfoInput? ==> 0.01 <= m.control.frequency <= 30.0
    ensures m.control.EnvelopeInput? ==>
      && m.control.attack + m.control.release == duration
      && m.control.decay == 0.0 && m.control.sustain == 0.0
      && !m.control.stopPlayback
      && (0.0 <= duration ==> 0.0 <= m.control.attack <= duration)
  {
    var (lo, hi) := Narrow(y_min, y_max, d.startRatio, d.span);
    var m :=
      if d.pick == 0 then
        RandomTimeCurve(property, duration, lo, hi, d.count, d.points)
      else if d.pick == 1 then
        Random(property, lo, hi)
      else if d.pick == 2 then
        Lfo(property, Uniform(0.01, 30.0, d.frequency), lo, hi, d.lfo)
      else
        var attack := duration - Uniform(0.0, duration, d.attack);
        var release := duration - attack;
        Adsr(property, attack, 0.0, 0.0, release, lo, hi, false);
    WithinNested(m.curve, y_min, y_max, lo, hi);
    m
  }
}
