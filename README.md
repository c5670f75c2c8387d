# muza tone generator: a verified model of its exact logic

`muza` renders test tones. A `Ruler` turns an integer note into a frequency: a
12-entry ratio table, indexed by the note's scale degree, times a
power of two for the octave. It turns a length multiplier into a duration from the
tempo. A `WaveFormerBuilder` makes a `WaveFormer` (waveform, duration, frequency).
`WaveFormer::render` writes one sample per frame and channel. `main` runs one thread per
octave and renders every note of the octave at four lengths into its own file.

This project models the exact, sequential parts of that program:

- `rust_int.dfy` (`RustInt`): Rust's truncating `/` and `%`, `rem_euclid` and the
  `as i32` cast, written out over mathematical integers.
- `tuning.dfy` (`Tuning`): the `Ruler`. It covers the degree index and the octave
  exponent (with the hand-written correction for negative notes), powers of two,
  frequencies, durations and the default table.
- `waveformer.dfy` (`WaveFormers`): the waveform choice, the `WaveFormer` record and
  the frame/channel loop of `render`. The loop is proved against `Written`, a function
  giving the whole sample stream.
- `builder.dfy` (`Builder`): the option-valued builder and `build`.
- `pipeline.dfy` (`Pipeline`): the job/note/length loops of `main`. They are proved
  against `Expected`, which gives the i-th render call in program order.
- `wrappers.dfy` (`Wrappers`): `Option` with `unwrap_or`.

Floating-point values (ratios, frequencies, durations, samples) are exact `real`s.
The sample of a frame and the frame count of a duration are left abstract.
`Render` and the grid methods take them as the parameters `synth` and `toFrames`.
The `2.0_f64.sqrt()` entry of the table is written as that `f64`'s exact value.

## Model

| member | source | states |
|---|---|---|
| RustInt.TruncDiv | muza/src/main.rs:155-157 | Rust's `/` by a positive divisor: the remainder it leaves is smaller than the divisor and is zero or has the dividend's sign (truncation toward zero) |
| RustInt.RemEuclid | muza/src/main.rs:149 | `rem_euclid`, computed from the truncating remainder as Rust does, lies in `[0, b)` and equals the Euclidean remainder |
| RustInt.CastI32 | muza/src/main.rs:153 | `note as i32` is the identity on the `i32` range and otherwise agrees with the note modulo 2^32 |
| RustInt.TruncRem | muza/src/main.rs:149 | the truncating `%` inside `rem_euclid`: smaller than the divisor in absolute value, and zero or of the dividend's sign; `RemEuclid` corrects it into `[0, b)` |
| Tuning.Index | muza/src/main.rs:148-150 | the slot `ration` reads is in `0..12`, so the table lookup is always in bounds, negative notes included |
| Tuning.IndexPeriodic | muza/src/main.rs:148-150 | the slot is periodic: `index(note + 12) == index(note)` for every `i64` note whose next octave is still an `i64` |
| Tuning.ExponentIsFloor | muza/src/main.rs:151-159 | on the `i32` range the corrected truncating exponent is floor division: `12*e <= note < 12*e + 12`, i.e. `e == note / 12` |
| Tuning.Decomposition | muza/src/main.rs:148-159 | `12 * exponent(note) + index(note) == note` on the `i32` range |
| Tuning.ExponentStep | muza/src/main.rs:151-159 | `exponent(note + 12) == exponent(note) + 1` when both notes are in the `i32` range |
| Tuning.ExponentExamples | muza/src/main.rs:151-159 | -1 and -12 give -1, -13 gives -2, 0 and 11 give 0, 12 gives 1; plain truncation of -1 would give 0 |
| Tuning.ExponentWrapsOutsideI32 | muza/src/main.rs:153 | past the `i32` range the cast wraps, so the note 2^31 gets a negative exponent |
| Tuning.Ruler.Ration | muza/src/main.rs:148-150 | `ration` is an entry of the ruler's table, the one at slot `Index(note)`; `IndexPeriodic` makes it periodic in the octave |
| Tuning.PowerExponent | muza/src/main.rs:152-158 | the exponent handed to `powi`: the note cast to `i32`, then the truncating `/ 12`, corrected by `(note + 1) / 12 - 1` for negative notes; `ExponentIsFloor`, `Decomposition`, `ExponentStep`, `ExponentExamples` and `ExponentWrapsOutsideI32` carry its properties |
| Tuning.Pow2 | muza/src/main.rs:154 | `powi` on base 2 as the exact `2^k` for every integer `k`, always positive; `Pow2Step` and `Pow2Grows` carry its properties |
| Tuning.Ruler.Power | muza/src/main.rs:151-159 | the octave power is positive, and is `2^(note / 12)` (floor division) on the `i32` range by `PowerIsOctave` |
| Tuning.PowerIsOctave | muza/src/main.rs:151-159 | on the `i32` range `power(note) == 2^(note / 12)` with floor division, negative notes included |
| Tuning.Ruler.Frequency | muza/src/main.rs:160-162 | `frequency` is base times ration times power, positive when the base and the ration are; `FrequencyAtZero`, `FrequencyOctave` and `FrequencyIncreasing` carry its properties |
| Tuning.Ruler.Duration | muza/src/main.rs:163-165 | `duration` is beats per second times the length, positive for a positive tempo and length; `DurationLinear` and `DefaultDurations` carry its properties |
| Tuning.DurationLinear | muza/src/main.rs:163-165 | `duration` is linear: it adds over a sum of lengths and scales with a multiple of a length |
| Tuning.Pow2Step | muza/src/main.rs:154 | `2^(k+1) == 2 * 2^k` for every integer `k`, negative included |
| Tuning.Pow2Grows | muza/src/main.rs:154 | each higher exponent at least doubles the power |
| Tuning.PowerOfMinusOne | muza/src/main.rs:151-159 | `power(-1) == 0.5`, one octave below the base |
| Tuning.FrequencyAtZero | muza/src/main.rs:160-162 | with unison ratio 1, note 0 sounds at the base frequency |
| Tuning.FrequencyOctave | muza/src/main.rs:160-162 | octave doubling: `frequency(note + 12) == 2 * frequency(note)` on the `i32` range |
| Tuning.FrequencyIncreasing | muza/src/main.rs:146-162 | with a positive base and a table that starts at 1, increases strictly and stays below 2, a higher note on the `i32` range has a strictly higher frequency |
| Tuning.RatioPowerIncreasing | muza/src/main.rs:146-159 | under the same table condition, `ration(note) * power(note)` strictly increases with the note |
| Tuning.PowerOrder | muza/src/main.rs:151-159 | from one note to a higher one the octave power at least doubles, or stays equal while the degree index grows |
| Tuning.ScaledRatioLess | muza/src/main.rs:146-150 | two entries of such a table, scaled by powers that at least double or stay equal with a higher degree, keep that order |
| Tuning.ProductLess | muza/src/main.rs:160-162 | a ratio in `[1, 2)` times a power is below a ratio of at least 1 times a power at least twice as large, and below a larger ratio times the same power |
| Tuning.ScaleByBase | muza/src/main.rs:160-162 | multiplying by a positive base frequency keeps the order of ratio times power |
| Tuning.DefaultRationsAsWritten | muza/src/main.rs:129-142 | the default table as written: it starts at the unison 1 and its last entry `256.0 / 128.0` is 2, the octave itself; `SeventhEqualsNextTonic` draws the consequence |
| Tuning.SeventhEqualsNextTonic | muza/src/main.rs:129-142 | with the table as written, notes 11 and 12 have the same frequency, and the table is not within one octave |
| Tuning.DefaultRationsIntended | muza/src/main.rs:129-142 | the table with its last entry corrected to `243/128` (the other entries, the tritone `sqrt(2)` included, as written) starts at 1, increases strictly and stays below 2 |
| Tuning.DefaultRuler | muza/src/main.rs:124-145 | `Ruler::default()` has the table as written, sounds note 0 at 440 Hz, and sounds notes 11 and 12 both at 880 Hz |
| Tuning.DefaultRulerIntended | muza/src/main.rs:124-145 | the default ruler on the corrected table sounds note 0 at 440 Hz, and its frequency strictly increases with the note on the `i32` range |
| Tuning.DefaultDurations | muza/src/main.rs:163-165 | at 120 bpm a length gives twice as many seconds, and doubling the length doubles the duration |
| WaveFormers.Written | muza/src/main.rs:70-78 | the sample stream of `frames` frames has `frames * CHANNELS` samples, frame by frame; `WrittenLayout` and `ChannelsAgree` give each position's sample, and `Render` is proved to write it |
| WaveFormers.WrittenLayout | muza/src/main.rs:70-78 | the stream's sample at position `i` is the sample of frame `i / 2`: frames in increasing order, each on every channel |
| WaveFormers.ChannelsAgree | muza/src/main.rs:75-77 | positions `CHANNELS*f` and `CHANNELS*f+1` both hold frame `f`'s sample |
| WaveFormers.Render | muza/src/main.rs:60-79 | render writes exactly `frames_count * CHANNELS` samples, and they are the stream `Written` |
| Builder.WaveFormerBuilder.New | muza/src/main.rs:89-95 | a new builder has no setting |
| Builder.WaveFormerBuilder.Waveform | muza/src/main.rs:96-99 | sets the waveform, leaves duration and frequency unchanged |
| Builder.WaveFormerBuilder.Duration | muza/src/main.rs:100-103 | sets the duration, leaves waveform and frequency unchanged |
| Builder.WaveFormerBuilder.Frequency | muza/src/main.rs:104-107 | sets the frequency, leaves waveform and duration unchanged |
| Builder.WaveFormerBuilder.Build | muza/src/main.rs:108-114 | waveform defaults to `sin`, duration to 1.0; the built frequency is the duration setting, or 360.0 when it is unset |
| Builder.WaveFormerBuilder.BuildIntended | muza/src/main.rs:108-114 | as `build`, but the frequency comes from its own setting (default 360.0) |
| Builder.BuildDefaults | muza/src/main.rs:108-114 | with no setter, `build` gives `sin`, 1.0 s, 360 Hz |
| Builder.FrequencySetterIgnored | muza/src/main.rs:104-114 | calling the frequency setter never changes what `build` returns |
| Builder.FrequencyFollowsDuration | muza/src/main.rs:100-114 | after `duration(d)`, the built duration and frequency are both `d` |
| Builder.BuildMisreadsFrequency | muza/src/main.rs:104-114 | `new().frequency(440.0).build()` has frequency 360, where the intended build has 440 |
| Builder.BuildIntendedHonoursSetters | muza/src/main.rs:96-114 | the intended build returns exactly the values given to the three setters |
| Builder.BuildsAgreeWithoutFrequency | muza/src/main.rs:108-114 | with neither duration nor frequency set, the two builds agree, so `new().build()` in `main` is unaffected |
| Pipeline.CellAt | muza/src/main.rs:179-196 | every render's degree within the octave is in `0..12`, and its length is one of 1, 2, 4 and 8 |
| Pipeline.NoteOf | muza/src/main.rs:185-187 | the note of a render is `start + abs` with `start = job * 12 - 36`; `NoteMatchesRuler` shows that the ruler splits it back into `abs` and `job - 3` |
| Pipeline.Expected | muza/src/main.rs:184-196 | the i-th render call in program order: its cell `CellAt(i)`, its note, the `new().build()` waveformer with the ruler's frequency and duration set, and the samples `Written` for it; `RenderJob` and `RenderAll` are proved to make exactly these calls |
| Pipeline.CellAtPosition | muza/src/main.rs:179-196 | render number `job*48 + abs*4 + k` is the cell `(job, abs, lengths[k])` |
| Pipeline.PositionOfCellAt | muza/src/main.rs:179-196 | a cell determines its render number |
| Pipeline.SlotOfLength | muza/src/main.rs:182 | each length multiplier of `lengths` is found back at its own slot |
| Pipeline.AppendJob | muza/src/main.rs:178-203 | a job's 48 renders, appended after the renders of the jobs before it, continue the program order |
| Pipeline.RendersFacts | muza/src/main.rs:179-196 | renders in program order have pairwise distinct triples, and each note splits by the ruler into `(abs, job - 3)` |
| Pipeline.VisitedRange | muza/src/main.rs:185-186 | the notes visited in order, one per position, are exactly `-36..60` |
| Pipeline.CellsDistinct | muza/src/main.rs:193-196 | the `(job, abs, length)` triples of different renders differ, so no two renders share an output path |
| Pipeline.CellsCover | muza/src/main.rs:179-196 | every octave job, degree and length of the grid is rendered |
| Pipeline.NoteMatchesRuler | muza/src/main.rs:185-191 | each rendered note's ruler index is its note directory `abs` and its octave exponent is `job - 3` |
| Pipeline.RenderJob | muza/src/main.rs:181-199 | one job renders 48 times, in program order, each with the waveformer's frequency and duration set from the ruler, and visits the notes `start..start+12` |
| Pipeline.RenderAll | muza/src/main.rs:174-203 | exactly `8*12*4 = 384` renders with pairwise distinct triples; each note split by the ruler into `(abs, job - 3)`; the visited notes are exactly `-36..60`, in order and each once |

## Left out

- The waveform bodies `sqr`, `saw`, `tri` and `sin` (lines 13-37) are left out. Floating-point numerics are not modelled: a waveform is only a choice of one of the four.
- `duration_to_frame`, `frame_to_duration`, the phase `seconds * frequency % 1.0` and the `* 0.5` scaling (lines 52-57, 72-74) are left out. They are floating-point work; `Render` receives their combined effect as the functions `toFrames` and `synth`.
- A `WaveForm` is any `fn(f64) -> f64` in the source. The model has only the four library functions, the only ones the program uses.
- `f64` rounding is not modelled: ratios, frequencies and durations are exact reals. `powi` is the exact `2^k`, so `f64` overflow and underflow for exponents beyond about ±1023 are not modelled.
- `hound::WavWriter` creation, the WAV header, `write_sample` and its `unwrap` failures are left out. They are a foreign library and I/O; the writer is the returned sample sequence.
- `sample as f32` (line 76) is left out: the `f64` sample is narrowed to `f32` when written. `synth` stands for the value written, narrowing included.
- The empty loop at line 69 and the `println!` calls at lines 176-177 are left out. They do not affect the output.
- `fs::remove_dir_all` and `fs::create_dir` (lines 168-169, 183, 189) and their failures are left out. They are filesystem I/O.
- `thread::spawn`, the handle vector and `join` (lines 178-203) are modelled as a sequential loop over jobs. Each job owns a copy of the ruler and a disjoint set of paths. The order of renders across jobs is therefore not modelled.
- The output path string (lines 193-196) is modelled only as the triple `(job, abs, length)` it is formatted from. Injectivity of decimal formatting is not proved.
- RustInt.TruncDiv: it models Rust's `/` for positive divisors only. The program only divides by 12, so the zero-divisor and `MIN / -1` panics never arise.
- Tuning.ExponentIsFloor: floor division is proved only for notes in the `i32` range, because `power` casts the `i64` note to `i32`. Outside that range the model keeps the wrap-around (see `Tuning.ExponentWrapsOutsideI32`).

## Findings

| source | as written | input that shows it | evidently intended | confidence | as-written member | corrected member |
|---|---|---|---|---|---|---|
| muza/src/main.rs:112 | `build` sets `frequency` from `self.duration.unwrap_or(360.0)` | `WaveFormerBuilder::new().frequency(440.0).build()` has frequency 360.0; `.duration(2.0)` gives frequency 2.0 | `self.frequency.unwrap_or(360.0)` | high, not executed | Builder.FrequencySetterIgnored | Builder.BuildIntendedHonoursSetters |
| muza/src/main.rs:141 | the last ratio is `256.0 / 128.0`, which is 2.0, the octave | with the default table, `frequency(11) == frequency(12) == 880` Hz | `243.0 / 128.0`, the Pythagorean major seventh a step below the octave, as the entries 1-5 and 7-10 are Pythagorean ratios | medium, not executed | Tuning.SeventhEqualsNextTonic | Tuning.DefaultRationsIntended |

The pipeline builds its waveformer with `Build`, as `main` does with `new().build()` (line 184). `Builder.BuildsAgreeWithoutFrequency` shows that the corrected build gives the same waveformer there. `RenderAll` takes the ruler as a parameter. `main` passes `Ruler { frequency: 440.0, ..Default::default() }` (lines 170-173), which is `Tuning.DefaultRuler()` in this model, table as written. `Tuning.DefaultRulerIntended` is the same ruler on the corrected table.
