# waapi-sfx generator, modelled in Dafny

`waapi-sfx.py` generates procedural sound effects for Audiokinetic Wwise. It
builds a batch of Sound SFX objects, each with a Synth One source, and submits
the batch through the WAAPI call `ak.wwise.core.object.set`. Each sound has
RTPC entries. An RTPC entry binds a property to a curve and to a modulator:
an ADSR envelope, an LFO, a random LFO or a time curve.

This project models the generation logic. It is split into four modules:

- `Draws` (`draws.dfy`): the random draws, passed in as explicit values. A
  `Fraction` is one value of `random()` in `[0, 1)`. `Uniform(a, b, t)` is
  `uniform(a, b)`, which is `a + (b - a) * t`. A `randrange(a, b)` draw is an
  `int` parameter, and a `requires` keeps it in `[a, b)`.
- `Curves` (`curves.dfy`): curve points and `RandomPoints`. As in the source,
  the method builds the list with inserts at index `1 + k`. It then copies the
  list into an array and sorts it in place by `x` with a stable insertion sort,
  which is what `list.sort(key=...)` does. `SortByX`, a stable insertion sort
  written as a function, specifies the sort. `SampledPoints` specifies the whole
  method.
- `Modulators` (`modulators.dfy`): the `Rtpc` record and the `ControlInput`
  union, with one constructor per modulator kind. It holds the builders `Adsr`,
  `Lfo`, `Random` and `RandomTimeCurve`, the range narrowing `Narrow`, and
  `Modulation`, which narrows the range and then dispatches on `pick`.
- `Sounds` (`sounds.dfy`): `RandomEffect` (an index into a given pool of
  effects), `str(i)` for the sound names, `Sound` and `Generate`. `Generate`
  returns the arguments of the `set` call and does not make the call.

Every generated RTPC keeps one invariant, `Modulators.WellFormed`. The entry is
bound to its property. Its curve is sorted, has at least two linear points and
spans the modulator's domain: `[0, 1]` for envelopes and LFOs, `[0, duration]`
for time curves. Every `y` value lies inside the range declared for the
property. `FitsDuration` states that a timed modulator runs exactly for the
sound's duration, `attack + decay + sustain + release`.

The code accepts these edge cases without complaint, and so does the model:

- `RandomPoints` accepts `count < 2` and then returns the two boundary points.
- `Generate` accepts `num_sounds <= 0` and then yields an empty child list.
- Ranges with `y_min > y_max` are accepted throughout. `Between` treats such a
  range as the interval `[y_max, y_min]`.

## Model

| member | source | states |
|---|---|---|
| `Draws.Uniform` | waapi-sfx.py:2 | `uniform(a, b)` lies between `a` and `b` in either order, reaches `b` only when `a == b`, and is `a` for the draw 0 |
| `Curves.SortByXCorrect` | waapi-sfx.py:134 | the sort by `x` keeps the length, is a permutation (same multiset) and is sorted non-decreasingly by `x` |
| `Curves.SortByXStable` | waapi-sfx.py:134 | stability: for every key, the points with that key appear in the sorted sequence in the same order as in the input |
| `Curves.InsertByXKeyRun` | waapi-sfx.py:134 | one insertion step appends the point to the run of its own key and leaves the runs of all other keys unchanged |
| `Curves.SortByXKeepsFirst` | waapi-sfx.py:134 | stability: a first element with the least `x` stays first after sorting |
| `Curves.SortByXKeepsLast` | waapi-sfx.py:134 | stability: a last element with the greatest `x` stays last after sorting |
| `Curves.InsertByXAt` | waapi-sfx.py:134 | inserting a point puts it exactly between the keys up to its `x` and the keys above it |
| `Curves.SortByXInPlace` | waapi-sfx.py:134 | the in-place insertion sort leaves the array equal to the stable sort of its old contents |
| `Curves.InsertNext` | waapi-sfx.py:134 | one pass of the in-place sort inserts `a[i]` into the sorted prefix and leaves the rest of the array alone |
| `Curves.UnsortedFacts` | waapi-sfx.py:114-132 | before the sort, every point lies inside the `x`/`y` box and is linear, and for `x_min <= x_max` the boundary points hold the least and the greatest `x` |
| `Curves.SampledPoints` | waapi-sfx.py:112-135 | the curve has `count` points, or 2 when `count <= 2`; it is a permutation of the drawn points and sorted by `x`; every `x` and `y` lies in its range and every shape is `Linear`; for `x_min <= x_max` the first point is the one drawn at `x_min` and the last the one drawn at `x_max` |
| `Curves.RandomPoints` | waapi-sfx.py:112-135 | the method (a loop of `count - 2` inserts at index `1 + k`, then the in-place sort) returns exactly `SampledPoints` |
| `Modulators.UnitRamp` | waapi-sfx.py:20-34 | the shared two-point curve is a curve over `[0, 1]` from `y_min` to `y_max` that stays inside the range |
| `Modulators.Adsr` | waapi-sfx.py:15-47 | the entry is well-formed for its property and range, and its curve is `(0, y_min)` then `(1, y_max)`; it is an envelope with auto-release on, the given stop flag and the given a/d/s/r, timed to `a + d + s + r` |
| `Modulators.Lfo` | waapi-sfx.py:49-81 | well-formed two-point entry; the LFO has attack 0, the given frequency, depth in `[0, 100]`, waveform in `[0, 6)` and PWM in `[10, 90]` |
| `Modulators.Random` | waapi-sfx.py:83-110 | well-formed two-point entry; the random LFO has waveform 5 and frequency 0.01 |
| `Modulators.RandomTimeCurve` | waapi-sfx.py:137-154 | the curve has `max(count, 2)` points inside the range, and is well-formed over `[0, duration]` for a non-negative duration; `@TimeModDuration` is `duration` and stop-playback is false |
| `Modulators.Narrow` | waapi-sfx.py:160-163 | for `y_min <= y_max` the narrowed bounds satisfy `y_min <= lo <= hi <= y_max`; for an inverted range they nest the same way inverted; a start ratio of 0 keeps `y_min` |
| `Modulators.NarrowNested` | waapi-sfx.py:160-163 | the narrowing arithmetic keeps the new bounds ordered and nested inside the old ones, in either orientation |
| `Modulators.WithinNested` | waapi-sfx.py:161-174 | a curve inside the narrowed range is inside the declared range |
| `Modulators.Modulation` | waapi-sfx.py:156-174 | pick 0/1/2/3 gives a time curve, random LFO, LFO or envelope respectively; the curve lies inside both the narrowed and the declared range; the entry is well-formed and timed to `duration`; a time curve has 2 to 8 points and does not stop playback; an LFO frequency is in `[0.01, 30]`; an envelope has `attack + release == duration`, attack in `[0, duration]`, decay = sustain = 0 and no stop |
| `Sounds.RandomEffect` | waapi-sfx.py:11-13 | the chosen reference is the id of some effect of the pool |
| `Sounds.NatToString` | waapi-sfx.py:186 | `str(n)` is a non-empty digit string with a leading zero only for 0 |
| `Sounds.IntToString` | waapi-sfx.py:186 | `str(i)` starts with a minus sign exactly for negative `i` |
| `Sounds.NatToStringRoundTrip` | waapi-sfx.py:186 | parsing `str(n)` gives back `n` |
| `Sounds.IntToStringRoundTrip` | waapi-sfx.py:186 | parsing `str(i)` gives back `i`, signs included |
| `Sounds.SoundNamesDistinct` | waapi-sfx.py:186 | different indices give different `"FX" + str(i)` names |
| `Sounds.SoundPhases` | waapi-sfx.py:179-182 | for `sustain >= 0.01`, attack, decay and release lie in `[0.01, sustain]` and the duration lies in `[sustain + 0.03, 4 * sustain]` |
| `Sounds.ModulationBound` | waapi-sfx.py:198-211 | a modulation built for a target property and range is bound to it, stays in its range and is timed to the duration |
| `Sounds.SourceRtpcs` | waapi-sfx.py:197-204 | exactly 6 source RTPCs, in order Osc1Transpose, Osc2Transpose, NoiseLevel, Osc1Pwm, Osc2Pwm, FmAmount, each inside its declared range and timed to the sound's duration |
| `Sounds.ObjectRtpcs` | waapi-sfx.py:208-212 | exactly 3 object RTPCs, Volume, Lowpass and Highpass, each inside its range and timed to the duration; the Volume curve is exactly `(0, -96)` then `(1, 0)`, and the Volume envelope carries the sound's own a/d/s/r, has auto-release on and stops playback |
| `Sounds.Sound` | waapi-sfx.py:176-213 | the sound is named `"FX" + str(i)` and has one Synth One source node with the 6 source RTPCs and 3 object RTPCs, all keyed to `duration = a + d + s + r`; the Volume entry's curve is exactly `(0, -96)` then `(1, 0)`, with auto-release on and the sound's own a/d/s/r; base frequency is in `[100, 1000]`, the waveforms and noise shape in `[0, 4)`, the noise level in `[-12, 0]`; the effect is from the pool |
| `Sounds.SoundAt` | waapi-sfx.py:222 | the mapped sound at index `i` has the fixed outline named `"FX" + str(i)`, and its volume envelope's sustain, drawn by `uniform(0.1, 3)`, lies in `[0.1, 3)` |
| `Sounds.NumberedNamesDistinct` | waapi-sfx.py:222 | children numbered `FX1`, `FX2`, … in order have pairwise different names |
| `Sounds.Generate` | waapi-sfx.py:215-228 | one parent object, the default work unit, with `max(num_sounds, 0)` children; child `k` has the sound outline with name `FX(k+1)` and a sustain in `[0.1, 3)`; the policies are merge and replaceAll |
| `Sounds.GenerateNamesDistinct` | waapi-sfx.py:222-226 | no two children of a batch share a name |
| `Sounds.SoundShapeOutline` | waapi-sfx.py:184-212 | every sound with the fixed outline has the same names and property-name lists, whatever its random values |
| `Sounds.GenerateShapeFixed` | waapi-sfx.py:218-228 | two batches of the same size have the same outline, whatever their draws and effect pools |

## Left out

- The WAAPI connection and disconnection (waapi-sfx.py:5, 236) and the `ak.wwise.core.object.set` call (waapi-sfx.py:231). These are network I/O. `Generate` returns the call's arguments instead.
- The WAQL query that fetches the effect pool (waapi-sfx.py:8). The pool is a parameter. `RandomEffect` needs a valid index, so a caller must not pass an empty pool, as in the source, where `choice` of an empty list fails.
- The module-level call `Generate(16)` (waapi-sfx.py:233), which is script plumbing.
- Python's pseudo-random generator. Each draw is a parameter, so the model states facts for every possible draw and does not model the distribution.
- IEEE floating-point rounding. Numbers are `real`, so equalities such as `attack + release == duration` hold exactly only in the model.
- The `"type"` keys (`RTPC`, `Curve`, `Sound`, `SourcePlugin`) and the empty RTPC `"name"` are constant tags. The datatypes carry them implicitly. `ControlInput.TypeName` and `ControlInput.Name` give the modulators' type and name strings.
- `Modulators.RandomTimeCurve`: the well-formedness claim assumes `duration >= 0`. With a negative duration the sorted curve runs from `duration` to 0. The source never passes a negative duration.
- `Sounds.Sound`: the well-formedness part of each binding (sorted curve, domain ends) assumes a non-negative duration. Every `sustain >= 0.01` gives one, and `Generate` draws `sustain` from `[0.1, 3)`.
