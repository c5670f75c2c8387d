/**
  * The `Ruler` tuning model: an integer note is split into a scale degree
  * (which picks a ratio from a 12-entry table) and an octave exponent (which
  * scales by a power of two). Frequencies and durations are exact reals here.
  */
module Tuning {
  import opened RustInt

  /** `self.rations.len()`: the number of scale degrees per octave. */
  const Degrees: int := 12

  /** The fixed-size `[f64; 12]` ratio table. */
  type Table = t: seq<real> | |t| == Degrees
    witness [1.0, 1.0, 1.0, 1.0, 1.0, 1.0, 1.0, 1.0, 1.0, 1.0, 1.0, 1.0]

  datatype Ruler = Ruler(frequency: real, bpm: real, rations: Table) {

    /** `ration`: the table entry of the note's scale degree. */
    function Ration(note: i64): (t: real)
      ensures t in rations
    {
      rations[Index(note)]
    }

    /** `power`: two to the note's octave exponent (`2.0_f64.powi(..)`). */
    function Power(note: i64): (p: real)
      ensures p > 0.0
    {
      Pow2(PowerExponent(note))
    }

    /** `frequency`: base frequency times degree ratio times octave power. */
    function Frequency(note: i64): (f: real)
      ensures frequency > 0.0 && Ration(note) > 0.0 ==> f > 0.0
    {
      frequency * Ration(note) * Power(note)
    }

    /** `duration`: tempo in beats per second times the length multiplier. */
    function Duration(ration: real): (d: real)
      ensures bpm > 0.0 && ration > 0.0 ==> d > 0.0
    {
      bpm / 60.0 * ration
    }
  }

  /** The table slot `ration` reads: `note.rem_euclid(12) as usize`. */
  function Index(note: i64): (i: nat)
    ensures i < Degrees
  {
    RemEuclid(note, Degrees)
  }

  /**
    * The exponent `power` hands to `powi`: the note is cast to `i32`, and a
    * negative note is corrected as `(note + 1) / 12 - 1` with Rust's
    * truncating `/`.
    */
  function PowerExponent(note: i64): i32 {
    var n := CastI32(note);
    if n < 0 then TruncDiv(n + 1, Degrees) - 1 else TruncDiv(n, Degrees)
  }

  /** `2^k` for any integer `k`, as `powi` computes it on exact reals. */
  function Pow2(k: int): (p: real)
    ensures p > 0.0
    decreases Abs(k)
  {
    if k == 0 then 1.0
    else if k > 0 then 2.0 * Pow2(k - 1)
    else Pow2(k + 1) / 2.0
  }

  // ---------------------------------------------------------------------------
  // The integer decomposition of a note

  /** The table index is periodic in the octave, negative notes included. */
  lemma IndexPeriodic(note: i64)
    requires note + Degrees <= I64Max
    ensures Index(note + Degrees) == Index(note)
  {
  }

  /**
    * On the `i32` range the corrected truncating expression is floor division:
    * it is the unique `e` with `12 * e <= note < 12 * e + 12`.
    */
  lemma ExponentIsFloor(note: i64)
    requires InI32(note)
    ensures Degrees * PowerExponent(note) <= note < Degrees * PowerExponent(note) + Degrees
    ensures PowerExponent(note) == note / Degrees
  {
    var e := PowerExponent(note);
    EuclideanUnique(note, Degrees, e, note - Degrees * e);
  }

  /** Exponent and index together rebuild the note. */
  lemma Decomposition(note: i64)
    requires InI32(note)
    ensures Degrees * PowerExponent(note) + Index(note) == note
  {
    ExponentIsFloor(note);
  }

  /** Twelve notes up is one octave up. */
  lemma ExponentStep(note: i64)
    requires InI32(note) && InI32(note + Degrees)
    ensures PowerExponent(note + Degrees) == PowerExponent(note) + 1
  {
    ExponentIsFloor(note);
    ExponentIsFloor(note + Degrees);
  }

  /**
    * The edge cases around zero, and that plain truncation would get the
    * first of them wrong.
    */
  lemma ExponentExamples()
    ensures PowerExponent(-1) == -1 && PowerExponent(-12) == -1 && PowerExponent(-13) == -2
    ensures PowerExponent(11) == 0 && PowerExponent(12) == 1 && PowerExponent(0) == 0
    ensures TruncDiv(-1, Degrees) == 0
  {
  }

  /** Outside the `i32` range the cast wraps and the exponent is no longer the octave. */
  lemma ExponentWrapsOutsideI32()
    ensures PowerExponent(I32Max + 1) < 0 < (I32Max + 1) / Degrees
  {
  }

  // ---------------------------------------------------------------------------
  // Powers of two and frequencies

  lemma Pow2Step(k: int)
    ensures Pow2(k + 1) == 2.0 * Pow2(k)
  {
  }

  /** Each octave further up at least doubles the power. */
  lemma {:induction false} Pow2Grows(k: int, m: int)
    requires k < m
    ensures 2.0 * Pow2(k) <= Pow2(m)
    decreases m - k
  {
    Pow2Step(k);
    if k + 1 < m {
      Pow2Grows(k + 1, m);
      Pow2Step(m - 1);
      assert Pow2(k + 1) <= Pow2(m - 1) * 2.0;
    }
  }

  /** On the `i32` range `power` is two to the floor of the note over 12. */
  lemma PowerIsOctave(r: Ruler, note: i64)
    requires InI32(note)
    ensures r.Power(note) == Pow2(note / Degrees)
  {
    ExponentIsFloor(note);
  }

  /** `duration` is linear in the length multiplier. */
  lemma DurationLinear(r: Ruler, x: real, y: real, k: real)
    ensures r.Duration(x + y) == r.Duration(x) + r.Duration(y)
    ensures r.Duration(k * x) == k * r.Duration(x)
  {
  }

  /** `power(-1)` is one octave below the base. */
  lemma PowerOfMinusOne(r: Ruler)
    ensures r.Power(-1) == 0.5
  {
    ExponentExamples();
  }

  /** The note 0 sounds at the base frequency when the unison ratio is 1. */
  lemma FrequencyAtZero(r: Ruler)
    requires r.rations[0] == 1.0
    ensures r.Frequency(0) == r.frequency
  {
  }

  /** Octave doubling: twelve notes up doubles the frequency. */
  lemma FrequencyOctave(r: Ruler, note: i64)
    requires InI32(note) && InI32(note + Degrees)
    ensures r.Frequency(note + Degrees) == 2.0 * r.Frequency(note)
  {
    IndexPeriodic(note);
    ExponentStep(note);
    Pow2Step(PowerExponent(note));
  }

  /**
    * A table whose unison is 1 and whose ratios increase strictly and stay
    * below the octave ratio 2.
    */
  ghost predicate WithinOctave(t: Table) {
    t[0] == 1.0 && t[Degrees - 1] < 2.0 &&
    forall i, j :: 0 <= i < j < Degrees ==> t[i] < t[j]
  }

  /** With such a table, a higher note always sounds higher. */
  lemma FrequencyIncreasing(r: Ruler, a: i64, b: i64)
    requires WithinOctave(r.rations) && r.frequency > 0.0
    requires InI32(a) && InI32(b) && a < b
    ensures r.Frequency(a) < r.Frequency(b)
  {
    RatioPowerIncreasing(r, a, b);
    ScaleByBase(r, a, b);
  }

  /** Ratio times octave power, the frequency without its base, grows with the note. */
  lemma RatioPowerIncreasing(r: Ruler, a: i64, b: i64)
    requires WithinOctave(r.rations)
    requires InI32(a) && InI32(b) && a < b
    ensures r.Ration(a) * r.Power(a) < r.Ration(b) * r.Power(b)
  {
    PowerOrder(r, a, b);
    ScaledRatioLess(r.rations, Index(a), Index(b), r.Power(a), r.Power(b));
  }

  /** A higher note at least doubles the power, or keeps it and has a higher degree. */
  lemma PowerOrder(r: Ruler, a: i64, b: i64)
    requires InI32(a) && InI32(b) && a < b
    ensures 2.0 * r.Power(a) <= r.Power(b) || (r.Power(a) == r.Power(b) && Index(a) < Index(b))
  {
    HigherNoteSplit(a, b);
    if PowerExponent(a) < PowerExponent(b) {
      Pow2Grows(PowerExponent(a), PowerExponent(b));
    }
  }

  /** Table entries scaled by powers that at least double, or stay and move up a degree, grow. */
  lemma ScaledRatioLess(t: Table, ia: nat, ib: nat, pa: real, pb: real)
    requires WithinOctave(t) && ia < Degrees && ib < Degrees && pa > 0.0
    requires 2.0 * pa <= pb || (pa == pb && ia < ib)
    ensures t[ia] * pa < t[ib] * pb
  {
    RatioBounds(t, ia, ib);
    ProductLess(t[ia], t[ib], pa, pb);
  }

  /** A positive base frequency keeps the order of ratio times power. */
  lemma ScaleByBase(r: Ruler, a: i64, b: i64)
    requires r.frequency > 0.0
    requires r.Ration(a) * r.Power(a) < r.Ration(b) * r.Power(b)
    ensures r.Frequency(a) < r.Frequency(b)
  {
    var x, y := r.Ration(a) * r.Power(a), r.Ration(b) * r.Power(b);
    assert r.frequency * x < r.frequency * y;
  }

  /** In a table within the octave every ratio is in `[1, 2)`, larger at a higher degree. */
  lemma RatioBounds(t: Table, i: nat, j: nat)
    requires WithinOctave(t) && i < Degrees && j < Degrees
    ensures 1.0 <= t[i] < 2.0 && 1.0 <= t[j] < 2.0
    ensures i < j ==> t[i] < t[j]
  {
    assert i == 0 || t[0] < t[i];
    assert j == 0 || t[0] < t[j];
    assert i == Degrees - 1 || t[i] < t[Degrees - 1];
    assert j == Degrees - 1 || t[j] < t[Degrees - 1];
  }

  /** A higher note has a higher octave, or the same octave and a higher degree. */
  lemma HigherNoteSplit(a: i64, b: i64)
    requires InI32(a) && InI32(b) && a < b
    ensures PowerExponent(a) < PowerExponent(b) ||
      (PowerExponent(a) == PowerExponent(b) && Index(a) < Index(b))
  {
    Decomposition(a);
    Decomposition(b);
  }

  /**
    * Ratio times power grows with the power when the power at least doubles,
    * and with the ratio when the power is the same.
    */
  lemma ProductLess(ta: real, tb: real, pa: real, pb: real)
    requires pa > 0.0 && 1.0 <= ta < 2.0 && 1.0 <= tb
    requires 2.0 * pa <= pb || (pa == pb && ta < tb)
    ensures ta * pa < tb * pb
  {
    if pa == pb && ta < tb {
      assert ta * pa < tb * pa;
    } else {
      calc {
        ta * pa;
      <  2.0 * pa;
      <= pb;
      <= tb * pb;
      }
    }
  }

  // ---------------------------------------------------------------------------
  // The default ruler

  /** The `f64` value of `2.0_f64.sqrt()`, exactly. */
  const Sqrt2: real := 6369051672525773.0 / 4503599627370496.0

  /**
    * The default ratio table as the source writes it: its last entry is
    * `256.0 / 128.0`, which is 2, the octave itself.
    */
  function DefaultRationsAsWritten(): (t: Table)
    ensures t[0] == 1.0 && t[Degrees - 1] == 2.0
  {
    [1.0, 256.0 / 243.0, 9.0 / 8.0, 32.0 / 27.0, 81.0 / 64.0, 4.0 / 3.0,
     Sqrt2, 3.0 / 2.0, 128.0 / 81.0, 27.0 / 16.0, 16.0 / 9.0, 256.0 / 128.0]
  }

  /**
    * As written, degree 11 sounds exactly like degree 0 of the next octave, so
    * the table is not within one octave.
    */
  lemma SeventhEqualsNextTonic(r: Ruler)
    requires r.rations == DefaultRationsAsWritten()
    ensures r.Frequency(11) == r.Frequency(12)
    ensures !WithinOctave(r.rations)
  {
    ExponentExamples();
  }

  /**
    * The table the source evidently intends: the last entry is the
    * Pythagorean major seventh `243 / 128`, every other entry as written
    * (including the tritone `sqrt(2)`).
    */
  function DefaultRationsIntended(): (t: Table)
    ensures WithinOctave(t)
  {
    [1.0, 256.0 / 243.0, 9.0 / 8.0, 32.0 / 27.0, 81.0 / 64.0, 4.0 / 3.0,
     Sqrt2, 3.0 / 2.0, 128.0 / 81.0, 27.0 / 16.0, 16.0 / 9.0, 243.0 / 128.0]
  }

  /**
    * `Ruler::default()`: 440 Hz, 120 beats per minute and the table as
    * written, so note 0 sounds at 440 Hz and note 11 at the same 880 Hz as
    * note 12.
    */
  function DefaultRuler(): (r: Ruler)
    ensures r.rations == DefaultRationsAsWritten()
    ensures r.Frequency(0) == 440.0
    ensures r.Frequency(11) == r.Frequency(12) == 880.0
  {
    var r := Ruler(440.0, 120.0, DefaultRationsAsWritten());
    FrequencyAtZero(r);
    SeventhEqualsNextTonic(r);
    ExponentExamples();
    r
  }

  /** The default ruler on the intended table: a higher note always sounds higher. */
  function DefaultRulerIntended(): (r: Ruler)
    ensures r.Frequency(0) == 440.0
    ensures forall a: i64, b: i64 :: InI32(a) && InI32(b) && a < b ==> r.Frequency(a) < r.Frequency(b)
  {
    var r := Ruler(440.0, 120.0, DefaultRationsIntended());
    FrequencyAtZero(r);
    forall a: i64, b: i64 | InI32(a) && InI32(b) && a < b
      ensures r.Frequency(a) < r.Frequency(b)
    {
      FrequencyIncreasing(r, a, b);
    }
    r
  }

  /**
    * At the default 120 beats per minute, `duration` gives two seconds per
    * unit of length (it multiplies by beats per second rather than by seconds
    * per beat), and doubling the length doubles the duration.
    */
  lemma DefaultDurations(length: real)
    ensures DefaultRuler().Duration(length) == 2.0 * length
    ensures DefaultRuler().Duration(2.0 * length) == 2.0 * DefaultRuler().Duration(length)
  {
  }
}
