/**
  * The rendering grid of `main`: for every octave job, every note of that
  * octave and every length multiplier, set the frequency and duration of the
  * job's waveformer and render one file. The jobs run in parallel threads in
  * the program; each owns a copy of the ruler and a disjoint set of output
  * paths, so they are run here one after another.
  */
module Pipeline {
  import opened RustInt
  import opened Tuning
  import opened WaveFormers
  import opened Builder

  const Octaves: int := 8
  const Offset: int := 36
  /** The length multipliers, in beats, rendered for every note. */
  const Lengths: seq<int> := [1, 2, 4, 8]
  /** Renders per job: one per note of the octave and length. */
  const PerJob: int := Degrees * |Lengths|

  /** What the output path `out/o[job]/n[abs]/o[job] n[abs] l[length].wav` is made of. */
  datatype Cell = Cell(job: int, abs: int, length: int)

  /** One call of `render`: its path, the note, the waveformer's state and the samples written. */
  datatype RenderCall = RenderCall(cell: Cell, note: i64, former: WaveFormer, samples: seq<real>)

  /** The cell of the `i`-th render in program order. */
  function CellAt(i: nat): (c: Cell)
    ensures 0 <= c.abs < Degrees && c.length in Lengths
  {
    Cell(i / PerJob, i / |Lengths| % Degrees, Lengths[i % |Lengths|])
  }

  /** The absolute note of a cell: `start + abs` with `start = job * 12 - offset`. */
  function NoteOf(c: Cell): int {
    c.job * Degrees - Offset + c.abs
  }

  /** What the `i`-th render call is, by the program's loops. */
  function Expected(ruler: Ruler, toFrames: real -> nat, synth: (WaveFormer, nat) -> real, i: nat): RenderCall
    requires i < Octaves * PerJob
  {
    var c := CellAt(i);
    var w := WaveFormerBuilder.New().Build().(
      frequency := ruler.Frequency(NoteOf(c)),
      duration := ruler.Duration(c.length as real));
    RenderCall(c, NoteOf(c), w, Written(w, toFrames(w.duration), synth))
  }

  /** The loop counters `job`, `abs` and the length slot `k` give render number `job * PerJob + abs * |Lengths| + k`. */
  lemma CellAtPosition(job: int, abs: int, k: int)
    requires 0 <= job < Octaves && 0 <= abs < Degrees && 0 <= k < |Lengths|
    ensures CellAt(job * PerJob + abs * |Lengths| + k) == Cell(job, abs, Lengths[k])
  {
    var i := job * PerJob + abs * |Lengths| + k;
    assert i / |Lengths| == job * Degrees + abs;
    assert i / PerJob == job;
  }

  /** The position of a cell in program order: the inverse of `CellAt`. */
  function Position(c: Cell): int {
    c.job * PerJob + c.abs * |Lengths| + Slot(c.length)
  }

  /** The slot of a length multiplier in `Lengths`. */
  function Slot(length: int): int {
    if length == Lengths[0] then 0
    else if length == Lengths[1] then 1
    else if length == Lengths[2] then 2
    else 3
  }

  lemma SlotOfLength(k: int)
    requires 0 <= k < |Lengths|
    ensures Slot(Lengths[k]) == k
  {
  }

  lemma PositionOfCellAt(i: nat)
    requires i < Octaves * PerJob
    ensures Position(CellAt(i)) == i
  {
    var job, abs, k := i / PerJob, i / |Lengths| % Degrees, i % |Lengths|;
    assert i / |Lengths| == job * Degrees + abs;
    CellAtPosition(job, abs, k);
    SlotOfLength(k);
  }

  /** No two renders share a path. */
  lemma CellsDistinct(i: nat, j: nat)
    requires i < Octaves * PerJob && j < Octaves * PerJob && i != j
    ensures CellAt(i) != CellAt(j)
  {
    PositionOfCellAt(i);
    PositionOfCellAt(j);
  }

  /** Every octave, note and length of the grid is rendered. */
  lemma CellsCover(job: int, abs: int, length: int)
    requires 0 <= job < Octaves && 0 <= abs < Degrees && length in Lengths
    ensures exists i :: 0 <= i < Octaves * PerJob && CellAt(i) == Cell(job, abs, length)
  {
    var k :| 0 <= k < |Lengths| && Lengths[k] == length;
    CellAtPosition(job, abs, k);
  }

  /**
    * Because every `start` is a multiple of 12, the ruler splits each rendered
    * note back into the note directory `abs` and the octave `job - 3`.
    */
  lemma NoteMatchesRuler(i: nat)
    requires i < Octaves * PerJob
    ensures Index(NoteOf(CellAt(i))) == CellAt(i).abs
    ensures PowerExponent(NoteOf(CellAt(i))) == CellAt(i).job - Offset / Degrees
  {
    var c := CellAt(i);
    ExponentIsFloor(NoteOf(c));
    EuclideanUnique(NoteOf(c), Degrees, c.job - Offset / Degrees, c.abs);
  }

  /**
    * The body of one job's thread: a fresh `new().build()` waveformer, then
    * for each note of the octave and each length, set the waveformer's
    * frequency and duration and render. Returns the job's render calls and
    * the notes it visits, in order.
    */
  method RenderJob(ruler: Ruler, toFrames: real -> nat, synth: (WaveFormer, nat) -> real, job: int)
    returns (calls: seq<RenderCall>, notes: seq<int>)
    requires 0 <= job < Octaves
    ensures |calls| == PerJob
    ensures forall i :: 0 <= i < |calls| ==> calls[i] == Expected(ruler, toFrames, synth, job * PerJob + i)
    ensures |notes| == Degrees
    ensures forall a :: 0 <= a < |notes| ==> notes[a] == job * Degrees - Offset + a
  {
    calls, notes := [], [];
    var waveformer := WaveFormerBuilder.New().Build();
    var start := job * Degrees - Offset;
    for note := start to start + Degrees
      invariant |calls| == (note - start) * |Lengths|
      invariant forall i :: 0 <= i < |calls| ==> calls[i] == Expected(ruler, toFrames, synth, job * PerJob + i)
      invariant |notes| == note - start
      invariant forall a :: 0 <= a < |notes| ==> notes[a] == start + a
      invariant waveformer.waveform == WaveFormerBuilder.New().Build().waveform
    {
      var abs := note - start;
      notes := notes + [note];
      for k := 0 to |Lengths|
        invariant |calls| == abs * |Lengths| + k
        invariant forall i :: 0 <= i < |calls| ==> calls[i] == Expected(ruler, toFrames, synth, job * PerJob + i)
        invariant waveformer.waveform == WaveFormerBuilder.New().Build().waveform
      {
        var length := Lengths[k];
        waveformer := waveformer.(frequency := ruler.Frequency(note));
        waveformer := waveformer.(duration := ruler.Duration(length as real));
        var samples := Render(waveformer, toFrames, synth);
        CellAtPosition(job, abs, k);
        calls := calls + [RenderCall(Cell(job, abs, length), note, waveformer, samples)];
      }
    }
  }

  /**
    * The job loop of `main`, for a given ruler: every job's render calls and
    * visited notes, job after job.
    */
  method RenderAll(ruler: Ruler, toFrames: real -> nat, synth: (WaveFormer, nat) -> real)
    returns (renders: seq<RenderCall>, visited: seq<int>)
    ensures |renders| == Octaves * PerJob
    ensures forall i :: 0 <= i < |renders| ==> renders[i] == Expected(ruler, toFrames, synth, i)
    ensures forall i, j :: 0 <= i < j < |renders| ==> renders[i].cell != renders[j].cell
    ensures forall i :: 0 <= i < |renders| ==>
      Index(renders[i].note) == renders[i].cell.abs &&
      PowerExponent(renders[i].note) == renders[i].cell.job - Offset / Degrees
    ensures |visited| == Octaves * Degrees
    ensures forall i :: 0 <= i < |visited| ==> visited[i] == i - Offset
    ensures forall n :: n in visited <==> -Offset <= n < Octaves * Degrees - Offset
  {
    renders, visited := [], [];
    for job := 0 to Octaves
      invariant |renders| == job * PerJob
      invariant forall i :: 0 <= i < |renders| ==> renders[i] == Expected(ruler, toFrames, synth, i)
      invariant |visited| == job * Degrees
      invariant forall i :: 0 <= i < |visited| ==> visited[i] == i - Offset
    {
      var calls, notes := RenderJob(ruler, toFrames, synth, job);
      AppendJob(ruler, toFrames, synth, renders, calls, job);
      renders := renders + calls;
      visited := visited + notes;
    }
    RendersFacts(ruler, toFrames, synth, renders);
    VisitedRange(visited);
  }

  /** A job's render calls, appended after the jobs before it, continue the program order. */
  lemma AppendJob(ruler: Ruler, toFrames: real -> nat, synth: (WaveFormer, nat) -> real,
                  renders: seq<RenderCall>, calls: seq<RenderCall>, job: int)
    requires 0 <= job < Octaves && |renders| == job * PerJob && |calls| == PerJob
    requires forall i :: 0 <= i < |renders| ==> renders[i] == Expected(ruler, toFrames, synth, i)
    requires forall i :: 0 <= i < |calls| ==> calls[i] == Expected(ruler, toFrames, synth, job * PerJob + i)
    ensures forall i :: 0 <= i < |renders + calls| ==> (renders + calls)[i] == Expected(ruler, toFrames, synth, i)
  {
    forall i | 0 <= i < |renders + calls|
      ensures (renders + calls)[i] == Expected(ruler, toFrames, synth, i)
    {
      if i >= |renders| {
        assert (renders + calls)[i] == calls[i - job * PerJob];
      }
    }
  }

  /** Renders in program order have distinct paths and notes that split back into their cells. */
  lemma RendersFacts(ruler: Ruler, toFrames: real -> nat, synth: (WaveFormer, nat) -> real, renders: seq<RenderCall>)
    requires |renders| == Octaves * PerJob
    requires forall i :: 0 <= i < |renders| ==> renders[i] == Expected(ruler, toFrames, synth, i)
    ensures forall i, j :: 0 <= i < j < |renders| ==> renders[i].cell != renders[j].cell
    ensures forall i :: 0 <= i < |renders| ==>
      Index(renders[i].note) == renders[i].cell.abs &&
      PowerExponent(renders[i].note) == renders[i].cell.job - Offset / Degrees
  {
    forall i, j | 0 <= i < j < |renders|
      ensures renders[i].cell != renders[j].cell
    {
      CellsDistinct(i, j);
    }
    forall i | 0 <= i < |renders|
      ensures Index(renders[i].note) == renders[i].cell.abs
      ensures PowerExponent(renders[i].note) == renders[i].cell.job - Offset / Degrees
    {
      NoteMatchesRuler(i);
    }
  }

  /** The visited notes, one per note of every job, are exactly the notes from `-Offset` up. */
  lemma VisitedRange(visited: seq<int>)
    requires |visited| == Octaves * Degrees
    requires forall i :: 0 <= i < |visited| ==> visited[i] == i - Offset
    ensures forall n :: n in visited <==> -Offset <= n < Octaves * Degrees - Offset
  {
    forall n | -Offset <= n < Octaves * Degrees - Offset
      ensures n in visited
    {
      assert visited[n + Offset] == n;
    }
  }
}
