/** The second half of `create_patterns`: the grid of 16-sided chunks over
    the model, visited with x outermost and z innermost, one pattern file per
    chunk that is not all air, numbered consecutively; and `create_patterns`
    as a whole, from the voxel list to the pattern files. */
module ChunkPlanner {
  import opened Common
  import opened Coordinates
  import opened Decimal
  import opened ChunkEncoder
  import opened VoxelLookup
  import opened SharedPalette
  import opened BitPacking

  /** The model's extent along each axis. */
  datatype Size = Size(x: nat, y: nat, z: nat)

  /** A chunk of the grid, counted in chunks along each axis. */
  datatype ChunkCoord = ChunkCoord(x: nat, y: nat, z: nat)

  /** A pattern file: its name and the chunk it holds. How the chunk is
      serialised into the file's bytes is not part of this model. */
  datatype Pattern = Pattern(fileName: string, chunk: EncodedChunk)

  /** The pattern files written, in order, and the abort that ended the run,
      if one did. Files written before an abort stay written. */
  datatype PlanOutcome = PlanOutcome(written: seq<Pattern>, fault: Option<Fault>)

  /** The state before the first chunk. */
  const Init: PlanOutcome := PlanOutcome([], None)

  /** What the chunk loop encodes from: the lookup, the shared palette and
      the slot map. */
  datatype Job = Job(lookup: seq<Option<byte>>, palette: seq<string>, mapping: map<byte, byte>)

  ghost predicate JobReady(job: Job)
  {
    EncoderReady(job.lookup, job.palette, job.mapping)
  }

  /** What encoding one chunk gives: an abort, nothing (all air), or a chunk. */
  type Encoding = Result<Option<EncodedChunk>>

  const PatternExtension: string := ".cbsbp"

  /** Number of chunks along an axis of the given extent: the extent divided
      by 16, rounded up. */
  function ChunkCount(side: nat): (c: nat)
    ensures side <= 16 * c
    ensures c > 0 ==> 16 * (c - 1) < side
  {
    (side + 15) / 16
  }

  /** The u8 offset of the chunk numbered c along an axis: 16 * c, truncated
      to u8 as the program's cast does. */
  function ChunkOffset(c: nat): (o: byte)
    ensures o % 16 == 0 && o <= 240
    ensures o == 16 * (c % 16)
    ensures c < 16 ==> o == 16 * c
  {
    OffsetTruncates(c);
    (c * 16) % 256
  }

  lemma OffsetTruncates(c: nat)
    ensures (c * 16) % 256 == 16 * (c % 16)
  {
    var q, r := c / 16, c % 16;
    assert c * 16 == 256 * q + 16 * r;
  }

  function ChunkOffsets(c: ChunkCoord): Position
  {
    Position(ChunkOffset(c.x), ChunkOffset(c.y), ChunkOffset(c.z))
  }

  /** The suffix is omitted only for a 1 x 1 x 1 grid. */
  function OnePattern(size: Size): bool
  {
    ChunkCount(size.x) == 1 && ChunkCount(size.y) == 1 && ChunkCount(size.z) == 1
  }

  /** `<prefix>.cbsbp` for a single-chunk grid, `<prefix>_<index>.cbsbp` otherwise. */
  function PatternFileName(prefix: string, onePattern: bool, index: nat): string
  {
    if onePattern then prefix + PatternExtension
    else prefix + "_" + DecimalString(index) + PatternExtension
  }

  /** Numbered file names never clash. */
  lemma PatternFileNameInjective(prefix: string, i: nat, j: nat)
    requires PatternFileName(prefix, false, i) == PatternFileName(prefix, false, j)
    ensures i == j
  {
    var a := PatternFileName(prefix, false, i);
    var di, dj := DecimalString(i), DecimalString(j);
    var lo := |prefix| + 1;
    assert |di| == |dj|;
    assert a[lo .. lo + |di|] == di;
    assert a[lo .. lo + |dj|] == dj;
    DecimalInjective(i, j);
  }

  /** The chunks of row (x, y), z ascending. */
  function Row(x: nat, y: nat, h: nat): seq<ChunkCoord>
  {
    seq(h, z requires 0 <= z => ChunkCoord(x, y, z))
  }

  /** The chunks of plane x, y outer and z inner. */
  function Plane(x: nat, w: nat, h: nat): seq<ChunkCoord>
  {
    if w == 0 then [] else Plane(x, w - 1, h) + Row(x, w - 1, h)
  }

  /** The chunk grid in visiting order: x outermost, then y, then z. */
  function Grid(l: nat, w: nat, h: nat): seq<ChunkCoord>
  {
    if l == 0 then [] else Grid(l - 1, w, h) + Plane(l - 1, w, h)
  }

  function ChunkGrid(size: Size): seq<ChunkCoord>
  {
    Grid(ChunkCount(size.x), ChunkCount(size.y), ChunkCount(size.z))
  }

  lemma {:induction false} PlaneSize(x: nat, w: nat, h: nat)
    ensures |Plane(x, w, h)| == w * h
  {
    if w > 0 {
      PlaneSize(x, w - 1, h);
      assert (w - 1) * h + h == w * h;
    }
  }

  /** Chunk (x, y, z) of a plane sits at position y * h + z. */
  lemma {:induction false} PlaneAt(x: nat, w: nat, h: nat, y: nat, z: nat)
    requires y < w && z < h
    ensures y * h + z < |Plane(x, w, h)| && Plane(x, w, h)[y * h + z] == ChunkCoord(x, y, z)
  {
    PlaneSize(x, w - 1, h);
    PlaneSize(x, w, h);
    var front := Plane(x, w - 1, h);
    if y < w - 1 {
      PlaneAt(x, w - 1, h, y, z);
      assert Plane(x, w, h)[y * h + z] == front[y * h + z];
    } else {
      assert y * h == |front|;
      assert Plane(x, w, h)[y * h + z] == Row(x, y, h)[z];
    }
  }

  lemma MulStep(a: nat, b: nat)
    requires a > 0
    ensures (a - 1) * b + b == a * b
  {
  }

  /** The grid has one entry per chunk, l * w * h of them. */
  lemma {:induction false} GridSize(l: nat, w: nat, h: nat)
    ensures |Grid(l, w, h)| == l * (w * h)
  {
    if l > 0 {
      GridSize(l - 1, w, h);
      PlaneSize(l - 1, w, h);
      MulStep(l, w * h);
    }
  }

  /** Plane x of the grid starts at position x * (w * h). */
  lemma GridPlaneAt(l: nat, w: nat, h: nat, x: nat, j: nat)
    requires x < l && j < w * h
    ensures j < |Plane(x, w, h)| && x * (w * h) + j < |Grid(l, w, h)|
    ensures Grid(l, w, h)[x * (w * h) + j] == Plane(x, w, h)[j]
  {
    GridSize(x, w, h);
    PlaneSize(x, w, h);
    GridGrows(x + 1, l, w, h);
    var g := Grid(x + 1, w, h);
    assert g == Grid(x, w, h) + Plane(x, w, h);
    assert g[x * (w * h) + j] == Plane(x, w, h)[j];
  }

  lemma GridIndexSplit(x: nat, y: nat, z: nat, w: nat, h: nat)
    requires y < w && z < h
    ensures (x * w + y) * h + z == x * (w * h) + (y * h + z)
    ensures y * h + z < w * h
  {
    assert (x * w + y) * h == x * (w * h) + y * h;
    MulMonotone(y + 1, w, h);
  }

  /** Chunk (x, y, z) comes at position (x * w + y) * h + z of the visiting
      order: x outermost, z innermost. */
  lemma GridAt(l: nat, w: nat, h: nat, x: nat, y: nat, z: nat)
    requires x < l && y < w && z < h
    ensures (x * w + y) * h + z < |Grid(l, w, h)|
    ensures Grid(l, w, h)[(x * w + y) * h + z] == ChunkCoord(x, y, z)
  {
    GridIndexSplit(x, y, z, w, h);
    PlaneAt(x, w, h, y, z);
    GridPlaneAt(l, w, h, x, y * h + z);
  }

  /** The outcome of encoding the chunk c. */
  ghost function ChunkResult(job: Job, c: ChunkCoord): Encoding
    requires JobReady(job)
  {
    EncodeChunk(job.lookup, job.palette, job.mapping, ChunkOffsets(c))
  }

  /** What encoding each of the chunks cs gives, in order. */
  ghost function Results(job: Job, cs: seq<ChunkCoord>): seq<Encoding>
    requires JobReady(job)
  {
    seq(|cs|, k requires 0 <= k < |cs| => ChunkResult(job, cs[k]))
  }

  lemma ResultsAppend(job: Job, cs: seq<ChunkCoord>, c: ChunkCoord)
    requires JobReady(job)
    ensures Results(job, cs + [c]) == Results(job, cs) + [ChunkResult(job, c)]
  {
    var a, b := Results(job, cs + [c]), Results(job, cs) + [ChunkResult(job, c)];
    forall k | 0 <= k < |a| ensures a[k] == b[k] {
      if k < |cs| {
        assert (cs + [c])[k] == cs[k];
      }
    }
  }

  lemma ResultsPrefix(job: Job, a: seq<ChunkCoord>, b: seq<ChunkCoord>)
    requires JobReady(job) && a <= b
    ensures Results(job, a) <= Results(job, b)
  {
    var ra, rb := Results(job, a), Results(job, b);
    forall k | 0 <= k < |ra| ensures ra[k] == rb[k] {
      assert a[k] == b[k];
    }
  }

  /** One turn of the chunk loop: after an abort nothing more happens; an
      abort of the encoder ends the run; an all-air chunk is skipped; any
      other chunk is written under the next number, which is the number of
      files written so far. */
  function Emit(prefix: string, onePattern: bool, s: PlanOutcome, r: Encoding): PlanOutcome
  {
    if s.fault.Some? then s
    else
      match r
      case Err(f) => PlanOutcome(s.written, Some(f))
      case Ok(None) => s
      case Ok(Some(chunk)) =>
        PlanOutcome(s.written + [Pattern(PatternFileName(prefix, onePattern, |s.written|), chunk)], None)
  }

  /** The chunk loop over the encodings rs, in order, from state s. */
  function Run(prefix: string, onePattern: bool, s: PlanOutcome, rs: seq<Encoding>): PlanOutcome
  {
    if rs == [] then s
    else Emit(prefix, onePattern, Run(prefix, onePattern, s, rs[..|rs| - 1]), rs[|rs| - 1])
  }

  lemma {:induction false} RunAppend(prefix: string, onePattern: bool, s: PlanOutcome, a: seq<Encoding>, b: seq<Encoding>)
    ensures Run(prefix, onePattern, s, a + b) == Run(prefix, onePattern, Run(prefix, onePattern, s, a), b)
  {
    if b != [] {
      var n := |b|;
      assert (a + b)[..|a + b| - 1] == a + b[..n - 1];
      RunAppend(prefix, onePattern, s, a, b[..n - 1]);
    } else {
      assert a + b == a;
    }
  }

  /** After an abort, the remaining chunks change nothing. */
  lemma {:induction false} RunFaultSticks(prefix: string, onePattern: bool, s: PlanOutcome, rs: seq<Encoding>)
    requires s.fault.Some?
    ensures Run(prefix, onePattern, s, rs) == s
  {
    if rs != [] {
      RunFaultSticks(prefix, onePattern, s, rs[..|rs| - 1]);
    }
  }

  /** Once the loop has aborted on a prefix of the chunks, its outcome is
      that of the whole loop. */
  lemma RunStopsEarly(prefix: string, onePattern: bool, a: seq<Encoding>, rs: seq<Encoding>)
    requires a <= rs && Run(prefix, onePattern, Init, a).fault.Some?
    ensures Run(prefix, onePattern, Init, rs) == Run(prefix, onePattern, Init, a)
  {
    assert rs == a + rs[|a|..];
    RunAppend(prefix, onePattern, Init, a, rs[|a|..]);
    RunFaultSticks(prefix, onePattern, Run(prefix, onePattern, Init, a), rs[|a|..]);
  }

  /** Files are only ever added, at most one per chunk. */
  lemma {:induction false} RunGrows(prefix: string, onePattern: bool, s: PlanOutcome, rs: seq<Encoding>)
    ensures var r := Run(prefix, onePattern, s, rs);
      s.written <= r.written && |r.written| <= |s.written| + |rs|
  {
    if rs != [] {
      RunGrows(prefix, onePattern, s, rs[..|rs| - 1]);
    }
  }

  /** File j is named with number j. */
  lemma {:induction false} RunNames(prefix: string, onePattern: bool, s: PlanOutcome, rs: seq<Encoding>)
    requires forall j :: 0 <= j < |s.written| ==> s.written[j].fileName == PatternFileName(prefix, onePattern, j)
    ensures var r := Run(prefix, onePattern, s, rs);
      forall j :: 0 <= j < |r.written| ==> r.written[j].fileName == PatternFileName(prefix, onePattern, j)
  {
    if rs != [] {
      var front := Run(prefix, onePattern, s, rs[..|rs| - 1]);
      RunNames(prefix, onePattern, s, rs[..|rs| - 1]);
      EmitNames(prefix, onePattern, front, rs[|rs| - 1]);
    }
  }

  /** One turn of the chunk loop names the pattern it adds after its index. */
  lemma EmitNames(prefix: string, onePattern: bool, s: PlanOutcome, e: Encoding)
    requires forall j :: 0 <= j < |s.written| ==> s.written[j].fileName == PatternFileName(prefix, onePattern, j)
    ensures var r := Emit(prefix, onePattern, s, e);
      forall j :: 0 <= j < |r.written| ==> r.written[j].fileName == PatternFileName(prefix, onePattern, j)
  {
    if s.fault.None? && e.Ok? && e.value.Some? {
      var r := Emit(prefix, onePattern, s, e);
      assert r.written == s.written + [Pattern(PatternFileName(prefix, onePattern, |s.written|), e.value.value)];
    }
  }

  /** The run aborts exactly when some chunk's encoding aborts; the abort is
      that of the first such chunk, and the files are those written before it. */
  lemma {:induction false} RunFault(prefix: string, onePattern: bool, rs: seq<Encoding>)
    ensures Run(prefix, onePattern, Init, rs).fault.Some? <==> exists k :: 0 <= k < |rs| && rs[k].Err?
    ensures Run(prefix, onePattern, Init, rs).fault.Some? ==>
      exists k :: 0 <= k < |rs| && rs[k] == Err(Run(prefix, onePattern, Init, rs).fault.value) &&
        Run(prefix, onePattern, Init, rs[..k]).fault.None? &&
        Run(prefix, onePattern, Init, rs).written == Run(prefix, onePattern, Init, rs[..k]).written
  {
    if rs != [] {
      var n := |rs|;
      var front := rs[..n - 1];
      RunFault(prefix, onePattern, front);
      forall k | 0 <= k < n - 1 ensures front[k] == rs[k] && front[..k] == rs[..k] { }
      if Run(prefix, onePattern, Init, front).fault.None? && rs[n - 1].Err? {
        assert rs[..n - 1] == front;
      }
    }
  }

  /** The chunks that are in range and not all air, in visiting order. */
  function Produced(rs: seq<Encoding>): seq<EncodedChunk>
  {
    if rs == [] then []
    else
      var front := Produced(rs[..|rs| - 1]);
      match rs[|rs| - 1]
      case Ok(Some(chunk)) => front + [chunk]
      case _ => front
  }

  /** Without an abort, the files written are exactly the chunks produced,
      in order, file j named with number j. */
  lemma {:induction false} RunProduces(prefix: string, onePattern: bool, rs: seq<Encoding>)
    requires Run(prefix, onePattern, Init, rs).fault.None?
    ensures var r := Run(prefix, onePattern, Init, rs);
      |r.written| == |Produced(rs)| &&
      forall j :: 0 <= j < |r.written| ==>
        r.written[j] == Pattern(PatternFileName(prefix, onePattern, j), Produced(rs)[j])
  {
    if rs != [] {
      var front := rs[..|rs| - 1];
      var before := Run(prefix, onePattern, Init, front);
      assert Run(prefix, onePattern, Init, rs) == Emit(prefix, onePattern, before, rs[|rs| - 1]);
      assert before.fault.None?;
      RunProduces(prefix, onePattern, front);
      var last := rs[|rs| - 1];
      if last.Ok? && last.value.Some? {
        var after := Run(prefix, onePattern, Init, rs);
        var chunk := last.value.value;
        assert after.written == before.written + [Pattern(PatternFileName(prefix, onePattern, |before.written|), chunk)];
        assert Produced(rs) == Produced(front) + [chunk];
        forall j | 0 <= j < |after.written|
          ensures after.written[j] == Pattern(PatternFileName(prefix, onePattern, j), Produced(rs)[j])
        {
          if j < |before.written| {
            assert after.written[j] == before.written[j];
            assert Produced(rs)[j] == Produced(front)[j];
          } else {
            assert j == |before.written| == |Produced(front)|;
            assert Produced(rs)[j] == chunk;
          }
        }
      } else {
        assert Produced(rs) == Produced(front);
      }
    }
  }

  /** A model whose every chunk is all air writes no file. */
  lemma {:induction false} AllAirWritesNothing(prefix: string, onePattern: bool, rs: seq<Encoding>)
    requires forall k :: 0 <= k < |rs| ==> rs[k] == Ok(None)
    ensures Run(prefix, onePattern, Init, rs) == Init
  {
    if rs != [] {
      var front := rs[..|rs| - 1];
      assert forall k :: 0 <= k < |front| ==> front[k] == rs[k];
      AllAirWritesNothing(prefix, onePattern, front);
    }
  }

  /** The files one model's chunk loop writes have pairwise distinct names:
      numbered names differ, and a one-chunk grid writes at most one file,
      `<prefix>.cbsbp`. */
  lemma PlanNamesDistinct(job: Job, prefix: string, size: Size)
    requires JobReady(job)
    ensures var r := Run(prefix, OnePattern(size), Init, Results(job, ChunkGrid(size)));
      (forall i, j :: 0 <= i < j < |r.written| ==> r.written[i].fileName != r.written[j].fileName) &&
      (OnePattern(size) ==> |r.written| <= 1 && forall i :: 0 <= i < |r.written| ==> r.written[i].fileName == prefix + PatternExtension)
  {
    var one := OnePattern(size);
    var rs := Results(job, ChunkGrid(size));
    var r := Run(prefix, one, Init, rs);
    RunNames(prefix, one, Init, rs);
    RunGrows(prefix, one, Init, rs);
    GridSize(ChunkCount(size.x), ChunkCount(size.y), ChunkCount(size.z));
    forall i, j | 0 <= i < j < |r.written|
      ensures r.written[i].fileName != r.written[j].fileName
    {
      if !one && r.written[i].fileName == r.written[j].fileName {
        PatternFileNameInjective(prefix, i, j);
      }
    }
  }

  /** With a lookup of side 255, every chunk of the sixteenth x slab (offset
      240) reads dense x coordinate 255, beyond the lookup: encoding aborts. */
  lemma EdgeChunkAborts(job: Job, y: nat, z: nat)
    requires JobReady(job) && |job.lookup| == LookupSize
    ensures ChunkResult(job, ChunkCoord(15, y, z)).Err?
  {
    var offset := ChunkOffsets(ChunkCoord(15, y, z));
    assert offset.x == 240;
    assert PositionFromIndex(15) == Position(0, 0, 15);
    assert LookupIndex(15, offset) >= LookupSize;
  }

  /** So a model more than 240 voxels long in x aborts, whatever its voxels:
      the loop meets a chunk of slab 15 unless an earlier chunk aborted it. */
  lemma WideModelAborts(job: Job, prefix: string, size: Size)
    requires JobReady(job) && |job.lookup| == LookupSize
    requires 240 < size.x && size.y > 0 && size.z > 0
    ensures Run(prefix, OnePattern(size), Init, Results(job, ChunkGrid(size))).fault.Some?
  {
    var l, w, h := ChunkCount(size.x), ChunkCount(size.y), ChunkCount(size.z);
    assert l > 15;
    GridAt(l, w, h, 15, 0, 0);
    var k := (15 * w + 0) * h + 0;
    var rs := Results(job, ChunkGrid(size));
    EdgeChunkAborts(job, 0, 0);
    assert rs[k].Err?;
    RunFault(prefix, OnePattern(size), rs);
  }

  lemma RowGrows(x: nat, y: nat, z: nat, h: nat)
    requires z < h
    ensures Row(x, y, z + 1) == Row(x, y, z) + [ChunkCoord(x, y, z)]
    ensures Row(x, y, z + 1) <= Row(x, y, h)
  {
  }

  lemma {:induction false} PlaneGrows(x: nat, y: nat, w: nat, h: nat)
    requires y <= w
    ensures Plane(x, y, h) <= Plane(x, w, h)
    decreases w - y
  {
    if y < w {
      PlaneGrows(x, y + 1, w, h);
    }
  }

  lemma {:induction false} GridGrows(x: nat, l: nat, w: nat, h: nat)
    requires x <= l
    ensures Grid(x, w, h) <= Grid(l, w, h)
    decreases l - x
  {
    if x < l {
      GridGrows(x + 1, l, w, h);
    }
  }

  lemma PrefixInPrefix(p: seq<ChunkCoord>, a: seq<ChunkCoord>, b: seq<ChunkCoord>)
    requires a <= b
    ensures p + a <= p + b
  {
    assert (p + b)[..|p + a|] == p + a;
  }

  /** The chunks the loop has visited before chunk (x, y, z). */
  function VisitedBefore(x: nat, y: nat, z: nat, w: nat, h: nat): seq<ChunkCoord>
  {
    Grid(x, w, h) + Plane(x, y, h) + Row(x, y, z)
  }

  lemma VisitedNext(x: nat, y: nat, z: nat, w: nat, h: nat)
    requires z < h
    ensures VisitedBefore(x, y, z + 1, w, h) == VisitedBefore(x, y, z, w, h) + [ChunkCoord(x, y, z)]
  {
    RowGrows(x, y, z, h);
  }

  lemma RowStart(x: nat, y: nat, w: nat, h: nat)
    ensures VisitedBefore(x, y, 0, w, h) == Grid(x, w, h) + Plane(x, y, h)
  {
    assert Row(x, y, 0) == [];
  }

  lemma RowDone(x: nat, y: nat, z: nat, w: nat, h: nat)
    requires z == h
    ensures VisitedBefore(x, y, z, w, h) == Grid(x, w, h) + Plane(x, y + 1, h)
  {
  }

  lemma PlaneStart(x: nat, w: nat, h: nat)
    ensures Grid(x, w, h) + Plane(x, 0, h) == Grid(x, w, h)
  {
    assert Plane(x, 0, h) == [];
  }

  lemma PlaneDone(x: nat, y: nat, w: nat, h: nat)
    requires y == w
    ensures Grid(x, w, h) + Plane(x, y, h) == Grid(x + 1, w, h)
  {
  }

  /** The chunks visited up to and including (x, y, z) are a prefix of the grid. */
  lemma VisitedIsPrefix(x: nat, y: nat, z: nat, l: nat, w: nat, h: nat)
    requires x < l && y < w && z < h
    ensures VisitedBefore(x, y, z + 1, w, h) <= Grid(l, w, h)
  {
    var gp := Grid(x, w, h) + Plane(x, y, h);
    RowGrows(x, y, z, h);
    PrefixInPrefix(gp, Row(x, y, z + 1), Row(x, y, h));
    assert gp + Row(x, y, h) == Grid(x, w, h) + Plane(x, y + 1, h);
    PlaneGrows(x, y + 1, w, h);
    PrefixInPrefix(Grid(x, w, h), Plane(x, y + 1, h), Plane(x, w, h));
    assert Grid(x, w, h) + Plane(x, w, h) == Grid(x + 1, w, h);
    GridGrows(x + 1, l, w, h);
  }

  /** An abort at chunk (x, y, z), reached with the files `written` and
      after the encodings rs, is the outcome of the whole loop. */
  lemma FaultEndsPlan(job: Job, prefix: string, onePattern: bool, x: nat, y: nat, z: nat, l: nat, w: nat, h: nat,
                      r: Encoding, written: seq<Pattern>)
    requires JobReady(job) && x < l && y < w && z < h
    requires PlanOutcome(written, None) == Run(prefix, onePattern, Init, Results(job, VisitedBefore(x, y, z, w, h)))
    requires r == ChunkResult(job, ChunkCoord(x, y, z)) && r.Err?
    ensures Run(prefix, onePattern, Init, Results(job, Grid(l, w, h))) == PlanOutcome(written, Some(r.fault))
  {
    var c := ChunkCoord(x, y, z);
    var rs := Results(job, VisitedBefore(x, y, z, w, h));
    VisitedNext(x, y, z, w, h);
    ResultsAppend(job, VisitedBefore(x, y, z, w, h), c);
    RunLast(prefix, onePattern, rs, r);
    VisitedIsPrefix(x, y, z, l, w, h);
    ResultsPrefix(job, VisitedBefore(x, y, z + 1, w, h), Grid(l, w, h));
    RunStopsEarly(prefix, onePattern, rs + [r], Results(job, Grid(l, w, h)));
  }

  /** A row whose h chunks are all visited leaves the loop where the next row starts. */
  lemma RowFinished(job: Job, prefix: string, onePattern: bool, x: nat, y: nat, z: nat, w: nat, h: nat,
                    written: seq<Pattern>)
    requires JobReady(job) && z == h
    requires PlanOutcome(written, None) == Run(prefix, onePattern, Init, Results(job, VisitedBefore(x, y, z, w, h)))
    ensures PlanOutcome(written, None) == Run(prefix, onePattern, Init, Results(job, Grid(x, w, h) + Plane(x, y + 1, h)))
  {
    RowDone(x, y, z, w, h);
  }

  lemma PlanStep(job: Job, prefix: string, onePattern: bool, x: nat, y: nat, z: nat, w: nat, h: nat,
                 written: seq<Pattern>, r: Encoding, written': seq<Pattern>)
    requires JobReady(job) && z < h
    requires PlanOutcome(written, None) == Run(prefix, onePattern, Init, Results(job, VisitedBefore(x, y, z, w, h)))
    requires r == ChunkResult(job, ChunkCoord(x, y, z)) && r.Ok?
    requires written' == if r.value.Some? then written + [Pattern(PatternFileName(prefix, onePattern, |written|), r.value.value)] else written
    ensures PlanOutcome(written', None) == Run(prefix, onePattern, Init, Results(job, VisitedBefore(x, y, z + 1, w, h)))
  {
    var visited := VisitedBefore(x, y, z, w, h);
    var rs := Results(job, visited);
    VisitedNext(x, y, z, w, h);
    ResultsAppend(job, visited, ChunkCoord(x, y, z));
    RunLast(prefix, onePattern, rs, r);
  }

  lemma RunLast(prefix: string, onePattern: bool, rs: seq<Encoding>, r: Encoding)
    ensures Run(prefix, onePattern, Init, rs + [r]) == Emit(prefix, onePattern, Run(prefix, onePattern, Init, rs), r)
  {
    assert (rs + [r])[..|rs|] == rs;
  }

  /** `model_to_data` on the chunk c of the job. */
  method EncodeAt(job: Job, c: ChunkCoord) returns (r: Encoding)
    requires JobReady(job)
    ensures r == ChunkResult(job, c)
  {
    r := Encode(job.lookup, job.palette, job.mapping, ChunkOffsets(c));
  }

  /** The innermost loop of the chunk loop of `create_patterns`, over the
      chunks (x, y, 0) .. (x, y, h - 1): each is encoded; an all-air chunk
      is skipped, any other is written under the next file number, and an
      abort ends the whole chunk loop. */
  method PlanRow(job: Job, prefix: string, onePattern: bool, x: nat, y: nat, l: nat, w: nat, h: nat,
                 written: seq<Pattern>, index: nat) returns (written': seq<Pattern>, index': nat, fault: Option<Fault>)
    requires JobReady(job) && x < l && y < w && index == |written|
    requires PlanOutcome(written, None) == Run(prefix, onePattern, Init, Results(job, Grid(x, w, h) + Plane(x, y, h)))
    ensures index' == |written'|
    ensures fault.None? ==>
      PlanOutcome(written', None) == Run(prefix, onePattern, Init, Results(job, Grid(x, w, h) + Plane(x, y + 1, h)))
    ensures fault.Some? ==> PlanOutcome(written', fault) == Run(prefix, onePattern, Init, Results(job, Grid(l, w, h)))
  {
    written', index', fault := written, index, None;
    RowStart(x, y, w, h);
    var z := 0;
    while z < h
      invariant 0 <= z <= h && index' == |written'| && fault.None?
      invariant PlanOutcome(written', None) == Run(prefix, onePattern, Init, Results(job, VisitedBefore(x, y, z, w, h)))
    {
      written', index', fault := PlanChunk(job, prefix, onePattern, x, y, z, l, w, h, written', index');
      if fault.Some? {
        return;
      }
      z := z + 1;
    }
    RowFinished(job, prefix, onePattern, x, y, z, w, h, written');
  }

  /** One turn of the row loop at chunk (x, y, z): the chunk is encoded; an
      all-air chunk is skipped, any other is written under the next file
      number, and an abort ends the whole chunk loop. */
  method PlanChunk(job: Job, prefix: string, onePattern: bool, x: nat, y: nat, z: nat, l: nat, w: nat, h: nat,
                   written: seq<Pattern>, index: nat) returns (written': seq<Pattern>, index': nat, fault: Option<Fault>)
    requires JobReady(job) && x < l && y < w && z < h && index == |written|
    requires PlanOutcome(written, None) == Run(prefix, onePattern, Init, Results(job, VisitedBefore(x, y, z, w, h)))
    ensures index' == |written'|
    ensures fault.None? ==>
      PlanOutcome(written', None) == Run(prefix, onePattern, Init, Results(job, VisitedBefore(x, y, z + 1, w, h)))
    ensures fault.Some? ==> PlanOutcome(written', fault) == Run(prefix, onePattern, Init, Results(job, Grid(l, w, h)))
  {
    var r := EncodeAt(job, ChunkCoord(x, y, z));
    if r.Err? {
      FaultEndsPlan(job, prefix, onePattern, x, y, z, l, w, h, r, written);
      return written, index, Some(r.fault);
    }
    written', index', fault := written, index, None;
    if r.value.Some? {
      written' := written + [Pattern(PatternFileName(prefix, onePattern, index), r.value.value)];
      index' := index + 1;
    }
    PlanStep(job, prefix, onePattern, x, y, z, w, h, written, r, written');
  }

  /** The triple chunk loop of `create_patterns`: every chunk of the grid in
      x-major order is encoded; an all-air chunk is skipped, any other is
      written under the next file number, an abort ends the loop. */
  method PlanChunks(lookup: seq<Option<byte>>, palette: seq<string>, mapping: map<byte, byte>,
                    prefix: string, size: Size) returns (out: PlanOutcome)
    requires EncoderReady(lookup, palette, mapping)
    ensures out == Run(prefix, OnePattern(size), Init, Results(Job(lookup, palette, mapping), ChunkGrid(size)))
  {
    var length := ChunkCount(size.x);
    var width := ChunkCount(size.y);
    var height := ChunkCount(size.z);
    var onePattern := length == 1 && width == 1 && height == 1;
    var job := Job(lookup, palette, mapping);
    var written: seq<Pattern> := [];
    var index := 0;
    var x := 0;
    while x < length
      invariant 0 <= x <= length && index == |written|
      invariant PlanOutcome(written, None) == Run(prefix, onePattern, Init, Results(job, Grid(x, width, height)))
    {
      PlaneStart(x, width, height);
      var y := 0;
      while y < width
        invariant 0 <= y <= width && index == |written|
        invariant PlanOutcome(written, None) ==
          Run(prefix, onePattern, Init, Results(job, Grid(x, width, height) + Plane(x, y, height)))
      {
        var fault;
        written, index, fault := PlanRow(job, prefix, onePattern, x, y, length, width, height, written, index);
        if fault.Some? {
          return PlanOutcome(written, fault);
        }
        y := y + 1;
      }
      PlaneDone(x, y, width, height);
      x := x + 1;
    }
    out := PlanOutcome(written, None);
  }

  /** The outcome of `create_patterns` for one model: an abort while filling
      the lookup, an abort while building the palette, or the chunk loop
      over the whole grid. */
  ghost function Created(voxels: seq<Voxel>, size: Size, colours: seq<Colour>, closest: Rgb -> Result<string>,
                         order: seq<byte>, prefix: string): PlanOutcome
    requires Enumerates(order, UsedSlots(voxels))
  {
    if !(forall j :: 0 <= j < |voxels| ==> VoxelIndex(voxels[j]) < LookupSize) then
      PlanOutcome([], Some(VoxelOutOfRange))
    else
      match PaletteOf(order, colours, closest)
      case Err(f) => PlanOutcome([], Some(f))
      case Ok(p) =>
        CreatedReady(voxels, order, colours, closest);
        Run(prefix, OnePattern(size), Init, Results(Job(LookupOf(voxels), p.entries, p.mapping), ChunkGrid(size)))
  }

  /** The shared palette built for a model meets what the encoder demands of
      the lookup built for it. */
  lemma CreatedReady(voxels: seq<Voxel>, order: seq<byte>, colours: seq<Colour>, closest: Rgb -> Result<string>)
    requires Enumerates(order, UsedSlots(voxels))
    requires PaletteOf(order, colours, closest).Ok?
    ensures var p := PaletteOf(order, colours, closest).value;
      EncoderReady(LookupOf(voxels), p.entries, p.mapping)
  {
    var p := PaletteOf(order, colours, closest).value;
    var lookup := LookupOf(voxels);
    PaletteShape(voxels, order, colours, closest);
    forall k | 0 <= k < |lookup| && lookup[k].Some?
      ensures lookup[k].value in p.mapping
    {
      LastSlotIsUsed(voxels, k);
    }
  }

  /** The files of one model's run are named after its prefix with their
      own numbers in order, so no two share a name; a model of a single
      chunk writes at most one file, without a number. */
  lemma CreatedNames(voxels: seq<Voxel>, size: Size, colours: seq<Colour>, closest: Rgb -> Result<string>,
                     order: seq<byte>, prefix: string)
    requires Enumerates(order, UsedSlots(voxels))
    ensures var r := Created(voxels, size, colours, closest, order, prefix);
      (forall j :: 0 <= j < |r.written| ==> r.written[j].fileName == PatternFileName(prefix, OnePattern(size), j)) &&
      (forall i, j :: 0 <= i < j < |r.written| ==> r.written[i].fileName != r.written[j].fileName) &&
      (OnePattern(size) ==> |r.written| <= 1)
  {
    if forall j :: 0 <= j < |voxels| ==> VoxelIndex(voxels[j]) < LookupSize {
      var pal := PaletteOf(order, colours, closest);
      if pal.Ok? {
        CreatedReady(voxels, order, colours, closest);
        var job := Job(LookupOf(voxels), pal.value.entries, pal.value.mapping);
        PlanNamesDistinct(job, prefix, size);
        RunNames(prefix, OnePattern(size), Init, Results(job, ChunkGrid(size)));
      }
    }
  }

  /** `create_patterns`: fills the lookup, builds the shared palette with the
      used slots in the given iteration order, then runs the chunk loop. */
  method CreatePatterns(voxels: seq<Voxel>, size: Size, colours: seq<Colour>, closest: Rgb -> Result<string>,
                        order: seq<byte>, prefix: string) returns (out: PlanOutcome)
    requires Enumerates(order, UsedSlots(voxels))
    ensures out == Created(voxels, size, colours, closest, order, prefix)
  {
    var lookup, used := BuildLookup(voxels);
    if lookup.Err? {
      return PlanOutcome([], Some(lookup.fault));
    }
    var palette := BuildPalette(order, colours, closest);
    if palette.Err? {
      return PlanOutcome([], Some(palette.fault));
    }
    CreatedReady(voxels, order, colours, closest);
    out := PlanChunks(lookup.value[..], palette.value.entries, palette.value.mapping, prefix, size);
  }
}
