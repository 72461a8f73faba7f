/** The effect picker `RandomEffect`, the Synth One sound assembler `Sound`
  * and the batch built by `Generate`. */
module Sounds {
  import opened Draws
  import opened Curves
  import opened Modulators

  // ---------------------------------------------------------------------------
  // Effect references

  /** An effect ShareSet returned by the project query; only its id is used. */
  datatype EffectObject = EffectObject(id: string)

  /** `RandomEffect()`: the id of the pool entry at the drawn index (`choice`). */
  function RandomEffect(pool: seq<EffectObject>, choice: int): (id: string)
    requires 0 <= choice < |pool|
    ensures exists k :: 0 <= k < |pool| && pool[k].id == id
  {
    pool[choice].id
  }

  // ---------------------------------------------------------------------------
  // Names: Python's str(i)

  function DigitChar(d: int): (c: char)
    requires 0 <= d < 10
    ensures '0' <= c <= '9' && c as int - '0' as int == d
  {
    ('0' as int + d) as char
  }

  predicate IsDigits(s: string) {
    forall k :: 0 <= k < |s| ==> '0' <= s[k] <= '9'
  }

  /** The decimal numeral of `n`, without leading zeros. */
  function NatToString(n: nat): (s: string)
    ensures 1 <= |s| && IsDigits(s)
    ensures s[0] == '0' <==> n == 0
  {
    if n < 10 then [DigitChar(n)] else NatToString(n / 10) + [DigitChar(n % 10)]
  }

  /** `str(i)` for an integer: a minus sign before the numeral of a negative value. */
  function IntToString(i: int): (s: string)
    ensures 1 <= |s|
    ensures s[0] == '-' <==> i < 0
  {
    if i < 0 then "-" + NatToString(-i) else NatToString(i)
  }

  /** The value of a decimal numeral: the partner of `NatToString`. */
  function ParseNat(s: string): nat
    requires IsDigits(s)
  {
    if s == [] then 0 else ParseNat(s[..|s| - 1]) * 10 + (s[|s| - 1] as int - '0' as int)
  }

  /** The value of a numeral with an optional minus sign: the partner of `IntToString`. */
  function ParseInt(s: string): int
    requires (1 <= |s| && s[0] == '-' && IsDigits(s[1..])) || IsDigits(s)
  {
    if 1 <= |s| && s[0] == '-' then -(ParseNat(s[1..]) as int) else ParseNat(s)
  }

  lemma {:induction false} NatToStringRoundTrip(n: nat)
    ensures ParseNat(NatToString(n)) == n
  {
    if n >= 10 {
      NatToStringRoundTrip(n / 10);
      var s := NatToString(n);
      assert s[..|s| - 1] == NatToString(n / 10);
    }
  }

  lemma IntToStringRoundTrip(i: int)
    ensures ParseInt(IntToString(i)) == i
  {
    var s := IntToString(i);
    if i < 0 {
      assert s[1..] == NatToString(-i);
      NatToStringRoundTrip(-i);
    } else {
      NatToStringRoundTrip(i);
    }
  }

  /** The name `Sound` gives the object with index `i`: `"FX" + str(i)`. */
  function SoundName(i: int): string {
    "FX" + IntToString(i)
  }

  /** Different indices give different names, so a batch never merges two of
    * its own sounds under `onNameConflict: "merge"`. */
  lemma SoundNamesDistinct(i: int, j: int)
    requires i != j
    ensures SoundName(i) != SoundName(j)
  {
    if SoundName(i) == SoundName(j) {
      assert SoundName(i)[2..] == IntToString(i);
      assert SoundName(j)[2..] == IntToString(j);
      IntToStringRoundTrip(i);
      IntToStringRoundTrip(j);
    }
  }

  // ---------------------------------------------------------------------------
  // Sound

  /** The four envelope phases of one sound, in seconds. */
  datatype Phases = Phases(attack: real, decay: real, sustain: real, release: real) {
    function Duration(): real {
      attack + decay + sustain + release
    }
  }

  /** A property the assembler modulates and the range it declares for it. */
  datatype Target = Target(property: string, y_min: real, y_max: real)

  /** The Synth One parameters, in the order the source node lists their RTPCs. */
  const SourceTargets: seq<Target> := [
    Target("Osc1Transpose", -1200.0, 1200.0),
    Target("Osc2Transpose", -1200.0, 1200.0),
    Target("NoiseLevel", -96.0, 6.0),
    Target("Osc1Pwm", 1.0, 99.0),
    Target("Osc2Pwm", 1.0, 99.0),
    Target("FmAmount", 0.0, 100.0)
  ]

  /** The sound object's own parameters, in the order of its RTPC list. */
  const ObjectTargets: seq<Target> := [
    Target("Volume", -96.0, 0.0),
    Target("Lowpass", 0.0, 20.0),
    Target("Highpass", 0.0, 20.0)
  ]

  /** The Synth One source node (plug-in class 9699330). */
  datatype SourcePlugin = SourcePlugin(
    name: string, classId: int,
    baseFrequency: real, osc1Waveform: int, osc2Waveform: int,
    noiseShape: int, noiseLevel: real, rtpcs: seq<Rtpc>)

  /** A Sound SFX object: its source node, its `@Effect0` reference and its RTPCs. */
  datatype SoundObject = SoundObject(name: string, children: seq<SourcePlugin>, effect0: string, rtpcs: seq<Rtpc>)

  /** The draws `Sound` makes: attack, decay and release (`uniform(0.01, sustain)`
    * each), the source node's base frequency, waveforms, noise shape and level,
    * six modulations for the source node, the effect index and the two filter
    * modulations. */
  datatype SoundDraws = SoundDraws(
    attack: Fraction, decay: Fraction, release: Fraction,
    baseFrequency: Fraction, osc1Waveform: int, osc2Waveform: int, noiseShape: int, noiseLevel: Fraction,
    source: seq<ModulationDraws>,
    effect: int,
    lowpass: ModulationDraws, highpass: ModulationDraws)
  {
    predicate Valid(poolSize: int) {
      && 0 <= osc1Waveform < 4 && 0 <= osc2Waveform < 4 && 0 <= noiseShape < 4
      && |source| == 6 && (forall k :: 0 <= k < 6 ==> source[k].Valid())
      && 0 <= effect < poolSize
      && lowpass.Valid() && highpass.Valid()
    }
  }

  /** The phases of a sound with the given sustain: attack, decay and release
    * are each drawn from `[0.01, sustain]`. */
  function SoundPhases(sustain: real, d: SoundDraws): (p: Phases)
    ensures p.sustain == sustain
    ensures 0.01 <= sustain ==>
      && 0.01 <= p.attack <= sustain && 0.01 <= p.decay <= sustain && 0.01 <= p.release <= sustain
      && sustain + 0.03 <= p.Duration() <= 4.0 * sustain
  {
    Phases(Uniform(0.01, sustain, d.attack), Uniform(0.01, sustain, d.decay), sustain, Uniform(0.01, sustain, d.release))
  }

  /** `r` binds `t.property`, keeps its curve inside `t`'s declared range and,
    * when timed, runs for `duration`. */
  predicate Bound(r: Rtpc, t: Target, duration: real) {
    && r.propertyName == t.property
    && WithinRange(r.curve, t.y_min, t.y_max)
    && FitsDuration(r, duration)
    && (0.0 <= duration ==> WellFormed(r, t.property, t.y_min, t.y_max))
  }

  /** `rs` binds, in order, the properties of `ts`. */
  predicate Binds(rs: seq<Rtpc>, ts: seq<Target>, duration: real) {
    |rs| == |ts| && forall k :: 0 <= k < |rs| ==> Bound(rs[k], ts[k], duration)
  }

  /** A modulation built for a target's property and range is bound to it. */
  lemma ModulationBound(t: Target, duration: real, d: ModulationDraws)
    requires d.Valid()
    ensures Bound(Modulation(t.property, duration, t.y_min, t.y_max, d), t, duration)
  {
  }

  /** The six source RTPCs of `Sound`, in the order of its `@RTPC` list. */
  function SourceRtpcs(duration: real, ds: seq<ModulationDraws>): (rs: seq<Rtpc>)
    requires |ds| == 6 && forall k :: 0 <= k < 6 ==> ds[k].Valid()
    ensures Binds(rs, SourceTargets, duration)
  {
    var rs := [
      Modulation("Osc1Transpose", duration, -1200.0, 1200.0, ds[0]),
      Modulation("Osc2Transpose", duration, -1200.0, 1200.0, ds[1]),
      Modulation("NoiseLevel", duration, -96.0, 6.0, ds[2]),
      Modulation("Osc1Pwm", duration, 1.0, 99.0, ds[3]),
      Modulation("Osc2Pwm", duration, 1.0, 99.0, ds[4]),
      Modulation("FmAmount", duration, 0.0, 100.0, ds[5])
    ];
    forall k | 0 <= k < 6 ensures Bound(rs[k], SourceTargets[k], duration) {
      ModulationBound(SourceTargets[k], duration, ds[k]);
    }
    rs
  }

  /** The three object RTPCs of `Sound`: the volume envelope over the sound's
    * own phases, then the low-pass and high-pass sweeps. */
  function ObjectRtpcs(p: Phases, lowpass: ModulationDraws, highpass: ModulationDraws): (rs: seq<Rtpc>)
    requires lowpass.Valid() && highpass.Valid()
    ensures Binds(rs, ObjectTargets, p.Duration())
    ensures rs[0].curve == [Point(0.0, -96.0, Linear), Point(1.0, 0.0, Linear)]
    ensures var v := rs[0].control;
      && v.EnvelopeInput? && v.stopPlayback && v.autoRelease
      && v.attack == p.attack && v.decay == p.decay && v.sustain == p.sustain && v.release == p.release
  {
    var duration := p.Duration();
    var rs := [
      Adsr("Volume", p.attack, p.decay, p.sustain, p.release, -96.0, 0.0, true),
      Modulation("Lowpass", duration, 0.0, 20.0, lowpass),
      Modulation("Highpass", duration, 0.0, 20.0, highpass)
    ];
    ModulationBound(ObjectTargets[1], duration, lowpass);
    ModulationBound(ObjectTargets[2], duration, highpass);
    assert Bound(rs[0], ObjectTargets[0], duration);
    rs
  }

  /** The fixed outline of every sound: its name, one Synth One source node with
    * the six source RTPCs, and the three object RTPCs led by a volume envelope
    * that stops playback. */
  predicate SoundShape(s: SoundObject, i: int, duration: real) {
    && s.name == SoundName(i)
    && |s.children| == 1
    && s.children[0].name == "WSFX" && s.children[0].classId == 9699330
    && Binds(s.children[0].rtpcs, SourceTargets, duration)
    && Binds(s.rtpcs, ObjectTargets, duration)
    && s.rtpcs[0].control.EnvelopeInput? && s.rtpcs[0].control.stopPlayback
  }

  /** `Sound(i, sustain)`: one Synth One sound named `"FX" + str(i)`; every
    * modulation is keyed to the sound's duration, attack + decay + sustain + release. */
  function Sound(i: int, sustain: real, pool: seq<EffectObject>, d: SoundDraws): (s: SoundObject)
    requires d.Valid(|pool|)
    ensures SoundShape(s, i, SoundPhases(sustain, d).Duration())
    ensures var p := SoundPhases(sustain, d); var v := s.rtpcs[0].control;
      v.attack == p.attack && v.decay == p.decay && v.sustain == sustain && v.release == p.release
    ensures s.rtpcs[0].curve == [Point(0.0, -96.0, Linear), Point(1.0, 0.0, Linear)]
    ensures s.rtpcs[0].control.autoRelease
    ensures 100.0 <= s.children[0].baseFrequency <= 1000.0
    ensures 0 <= s.children[0].osc1Waveform < 4 && 0 <= s.children[0].osc2Waveform < 4
    ensures 0 <= s.children[0].noiseShape < 4
    ensures -12.0 <= s.children[0].noiseLevel <= 0.0
    ensures exists k :: 0 <= k < |pool| && pool[k].id == s.effect0
  {
    var p := SoundPhases(sustain, d);
    var duration := p.Duration();
    var source := SourcePlugin("WSFX", 9699330,
      Uniform(100.0, 1000.0, d.baseFrequency), d.osc1Waveform, d.osc2Waveform,
      d.noiseShape, Uniform(-12.0, 0.0, d.noiseLevel),
      SourceRtpcs(duration, d.source));
    var rtpcs := ObjectRtpcs(p, d.lowpass, d.highpass);
    SoundObject(SoundName(i), [source], RandomEffect(pool, d.effect), rtpcs)
  }

  // ---------------------------------------------------------------------------
  // Generate

  /** The draws for one sound of the batch: its sustain (`uniform(0.1, 3)`) and its own draws. */
  datatype SoundDraw = SoundDraw(sustain: Fraction, sound: SoundDraws) {
    function Sustain(): real {
      Uniform(0.1, 3.0, sustain)
    }

    function Duration(): real {
      SoundPhases(Sustain(), sound).Duration()
    }
  }

  /** The mapped function `lambda i: Sound(i, uniform(0.1, 3))` of `Generate`. */
  function SoundAt(i: int, pool: seq<EffectObject>, d: SoundDraw): (s: SoundObject)
    requires d.sound.Valid(|pool|)
    ensures s.name == SoundName(i)
    ensures SoundShape(s, i, d.Duration())
    ensures 0.1 <= s.rtpcs[0].control.sustain < 3.0
  {
    Sound(i, d.Sustain(), pool, d.sound)
  }

  /** One entry of the `objects` argument: the parent path (its `object` key) and the children to create. */
  datatype SetObject = SetObject(path: string, children: seq<SoundObject>)

  /** The arguments of `ak.wwise.core.object.set`. */
  datatype Batch = Batch(objects: seq<SetObject>, onNameConflict: string, listMode: string)

  const WorkUnit: string := "\\Actor-Mixer Hierarchy\\Default Work Unit"

  /** `Generate(num_sounds)` without its service call: the batch of sounds
    * `FX1` … `FXn` under the default work unit, replacing its children. */
  function Generate(numSounds: int, pool: seq<EffectObject>, draws: seq<SoundDraw>): (b: Batch)
    requires |draws| == if numSounds > 0 then numSounds else 0
    requires forall k :: 0 <= k < |draws| ==> draws[k].sound.Valid(|pool|)
    ensures |b.objects| == 1 && b.objects[0].path == WorkUnit
    ensures b.onNameConflict == "merge" && b.listMode == "replaceAll"
    ensures |b.objects[0].children| == |draws|
    ensures forall k :: 0 <= k < |draws| ==> b.objects[0].children[k].name == SoundName(k + 1)
    ensures forall k :: 0 <= k < |draws| ==>
      && SoundShape(b.objects[0].children[k], k + 1, draws[k].Duration())
      && 0.1 <= b.objects[0].children[k].rtpcs[0].control.sustain < 3.0
  {
    var children := seq(|draws|, k requires 0 <= k < |draws| => SoundAt(k + 1, pool, draws[k]));
    Batch([SetObject(WorkUnit, children)], "merge", "replaceAll")
  }

  /** Children named `FX1`, `FX2`, … in order have pairwise different names. */
  lemma NumberedNamesDistinct(cs: seq<SoundObject>, j: int, k: int)
    requires forall i :: 0 <= i < |cs| ==> cs[i].name == SoundName(i + 1)
    requires 0 <= j < k < |cs|
    ensures cs[j].name != cs[k].name
  {
    SoundNamesDistinct(j + 1, k + 1);
  }

  /** No two sounds of a batch share a name. */
  lemma GenerateNamesDistinct(numSounds: int, pool: seq<EffectObject>, draws: seq<SoundDraw>, j: int, k: int)
    requires |draws| == if numSounds > 0 then numSounds else 0
    requires forall k :: 0 <= k < |draws| ==> draws[k].sound.Valid(|pool|)
    requires 0 <= j < k < |draws|
    ensures var cs := Generate(numSounds, pool, draws).objects[0].children;
      cs[j].name != cs[k].name
  {
    NumberedNamesDistinct(Generate(numSounds, pool, draws).objects[0].children, j, k);
  }

  /** The property names of an RTPC list, in order. */
  function PropertyNames(rs: seq<Rtpc>): seq<string> {
    seq(|rs|, k requires 0 <= k < |rs| => rs[k].propertyName)
  }

  /** A sound with its random values erased: its name and the property names of
    * its source nodes' RTPCs and of its own RTPCs. */
  function SoundOutline(s: SoundObject): (string, seq<seq<string>>, seq<string>) {
    (s.name,
     seq(|s.children|, c requires 0 <= c < |s.children| => PropertyNames(s.children[c].rtpcs)),
     PropertyNames(s.rtpcs))
  }

  function TargetNames(ts: seq<Target>): seq<string> {
    seq(|ts|, k requires 0 <= k < |ts| => ts[k].property)
  }

  /** Every sound with the fixed outline has the same outline, whatever its values. */
  lemma SoundShapeOutline(s: SoundObject, i: int, duration: real)
    requires SoundShape(s, i, duration)
    ensures SoundOutline(s) == (SoundName(i), [TargetNames(SourceTargets)], TargetNames(ObjectTargets))
  {
    BindsNames(s.children[0].rtpcs, SourceTargets, duration);
    BindsNames(s.rtpcs, ObjectTargets, duration);
    var perChild := seq(|s.children|, c requires 0 <= c < |s.children| => PropertyNames(s.children[c].rtpcs));
    assert perChild == [TargetNames(SourceTargets)];
  }

  lemma BindsNames(rs: seq<Rtpc>, ts: seq<Target>, duration: real)
    requires Binds(rs, ts, duration)
    ensures PropertyNames(rs) == TargetNames(ts)
  {
  }

  /** A batch with its random values erased. */
  function Outline(b: Batch): seq<(string, seq<seq<string>>, seq<string>)>
    requires |b.objects| == 1
  {
    var cs := b.objects[0].children;
    seq(|cs|, k requires 0 <= k < |cs| => SoundOutline(cs[k]))
  }

  /** Two batches of the same size have the same outline, whatever their draws
    * and effect pools. */
  lemma GenerateShapeFixed(numSounds: int,
                           pool1: seq<EffectObject>, draws1: seq<SoundDraw>,
                           pool2: seq<EffectObject>, draws2: seq<SoundDraw>)
    requires |draws1| == |draws2| == if numSounds > 0 then numSounds else 0
    requires forall k :: 0 <= k < |draws1| ==> draws1[k].sound.Valid(|pool1|)
    requires forall k :: 0 <= k < |draws2| ==> draws2[k].sound.Valid(|pool2|)
    ensures Outline(Generate(numSounds, pool1, draws1)) == Outline(Generate(numSounds, pool2, draws2))
  {
    var cs1 := Generate(numSounds, pool1, draws1).objects[0].children;
    var cs2 := Generate(numSounds, pool2, draws2).objects[0].children;
    forall k | 0 <= k < |cs1|
      ensures SoundOutline(cs1[k]) == SoundOutline(cs2[k])
    {
      SoundShapeOutline(cs1[k], k + 1, draws1[k].Duration());
      SoundShapeOutline(cs2[k], k + 1, draws2[k].Duration());
    }
  }
}
