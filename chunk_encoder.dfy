/** `model_to_data`: one 16x16x16 chunk encoded against the shared palette as
    a bit-packed array of palette indices plus per-entry usage counts. */
module ChunkEncoder {
  import opened Common
  import opened Coordinates
  import opened BitPacking

  /** One palette entry of the statistics with the number of chunk positions
      that resolve to it. */
  datatype BlockState = BlockState(blockInformation: string, count: nat)
  datatype Statistics = Statistics(primaryState: string, blockStates: seq<BlockState>)
  /** The packed data (as NBT's signed bytes) and the statistics of a chunk. */
  datatype EncodedChunk = EncodedChunk(data: seq<i8>, statistics: Statistics)

  /** u8 addition, wrapping as a release build does. */
  function AddU8(a: byte, b: byte): (r: byte)
    ensures a + b < 256 ==> r == a + b
  {
    (a + b) % 256
  }

  /** The model coordinate that local chunk position i reads: local (x, y, z)
      plus the chunk offset (ox, oy, oz) becomes (z + ox, x + oy, y + oz). */
  function ModelPosition(i: nat, offset: Position): Position
  {
    var p := PositionFromIndex(i);
    Position(AddU8(p.z, offset.x), AddU8(p.x, offset.y), AddU8(p.y, offset.z))
  }

  function LookupIndex(i: nat, offset: Position): nat
  {
    var m := ModelPosition(i, offset);
    IndexFromPosition(m.x, m.y, m.z)
  }

  /** With offsets that are multiples of 16 below 256 (those the planner
      produces) no addition wraps, and the remap is the plain permutation. */
  lemma ModelPositionNoWrap(i: nat, offset: Position)
    requires i < ChunkVolume
    requires offset.x % 16 == 0 && offset.y % 16 == 0 && offset.z % 16 == 0
    ensures var p := PositionFromIndex(i);
      ModelPosition(i, offset) == Position(p.z + offset.x, p.x + offset.y, p.y + offset.z)
  {
  }

  /** The lookup cell at dense index k; outside the array there is nothing
      (the encoder never reads there: it aborts first). */
  function CellAt(lookup: seq<Option<byte>>, k: nat): Option<byte>
  {
    if k < |lookup| then lookup[k] else None
  }

  /** Every slot stored in the lookup has a palette index. */
  ghost predicate MappingCovers(lookup: seq<Option<byte>>, mapping: map<byte, byte>)
  {
    forall k :: 0 <= k < |lookup| && lookup[k].Some? ==> lookup[k].value in mapping
  }

  ghost predicate MappingBelow(mapping: map<byte, byte>, n: nat)
  {
    forall s :: s in mapping ==> mapping[s] < n
  }

  /** Palette indices are written as u8 values, so at most 256 entries can be
      told apart. */
  const MaxEntries: nat := 256

  /** What the caller of the encoder guarantees: a palette of at most 256
      slot entries plus its air entry, and a slot map covering the lookup
      whose indices address the palette. */
  ghost predicate EncoderReady(lookup: seq<Option<byte>>, palette: seq<string>, mapping: map<byte, byte>)
  {
    1 <= |palette| <= MaxEntries + 1 && MappingCovers(lookup, mapping) && MappingBelow(mapping, |palette|)
  }

  /** The palette index a cell resolves to: its slot's mapped index, or the
      air index |palette| - 1 for an empty cell. */
  function EntryValue(cell: Option<byte>, mapping: map<byte, byte>, n: nat): nat
    requires n >= 1 && (cell.Some? ==> cell.value in mapping)
  {
    match cell
    case Some(s) => mapping[s]
    case None => n - 1
  }

  /** The palette index of each of the first i chunk positions, in encoding order. */
  ghost function ValuesBelow(lookup: seq<Option<byte>>, mapping: map<byte, byte>, n: nat, offset: Position, i: nat): (vals: seq<nat>)
    requires n >= 1 && MappingCovers(lookup, mapping)
    ensures |vals| == i
  {
    if i == 0 then []
    else ValuesBelow(lookup, mapping, n, offset, i - 1) + [EntryValue(CellAt(lookup, LookupIndex(i - 1, offset)), mapping, n)]
  }

  /** The palette index of every chunk position, in encoding order. */
  ghost function ChunkValues(lookup: seq<Option<byte>>, mapping: map<byte, byte>, n: nat, offset: Position): (vals: seq<nat>)
    requires n >= 1 && MappingCovers(lookup, mapping)
    ensures |vals| == ChunkVolume
  {
    ValuesBelow(lookup, mapping, n, offset, ChunkVolume)
  }

  ghost predicate AllInRange(lookup: seq<Option<byte>>, offset: Position)
  {
    forall i :: 0 <= i < ChunkVolume ==> LookupIndex(i, offset) < |lookup|
  }

  ghost predicate AllAbsent(lookup: seq<Option<byte>>, offset: Position)
  {
    forall i :: 0 <= i < ChunkVolume ==> CellAt(lookup, LookupIndex(i, offset)).None?
  }

  /** The outcome of encoding the chunk at `offset`. With 257 entries the
      width is 9 bits, too wide for the u8 written, and the first write aborts
      (unless the first position's lookup already did). Otherwise: an abort if
      some position reads beyond the lookup, nothing if every position is
      empty, else the data (entry width CeilLog2(|palette|)) and the
      statistics. */
  ghost function EncodeChunk(lookup: seq<Option<byte>>, palette: seq<string>, mapping: map<byte, byte>, offset: Position): Result<Option<EncodedChunk>>
    requires EncoderReady(lookup, palette, mapping)
  {
    if |palette| > MaxEntries then
      if LookupIndex(0, offset) < |lookup| then Err(EntryTooWide) else Err(LookupOutOfRange)
    else if !AllInRange(lookup, offset) then Err(LookupOutOfRange)
    else if AllAbsent(lookup, offset) then Ok(None)
    else
      var n := |palette|;
      var vals := ChunkValues(lookup, mapping, n, offset);
      var bytes := PackBytes(Stream(vals, CeilLog2(n)));
      var counts := Counts(vals, n);
      var states := seq(n, k requires 0 <= k < n => BlockState(palette[k], counts[k]));
      Ok(Some(EncodedChunk(SignedBytes(bytes), Statistics(palette[0], states))))
  }

  /** How often each index below n occurs in vals. */
  ghost function Counts(vals: seq<nat>, n: nat): (c: seq<nat>)
    ensures |c| == n
  {
    var m: multiset<nat> := multiset(vals);
    seq(n, k requires 0 <= k < n => m[k])
  }

  lemma CountsAppend(vals: seq<nat>, v: nat, n: nat)
    requires v < n
    ensures Counts(vals + [v], n) == Counts(vals, n)[v := Counts(vals, n)[v] + 1]
  {
    assert multiset(vals + [v]) == multiset(vals) + multiset{v};
  }

  lemma StreamAppend(vals: seq<nat>, v: nat, w: nat)
    ensures Stream(vals + [v], w) == Stream(vals, w) + Bits(v, w)
  {
    assert (vals + [v])[..|vals|] == vals;
  }

  /** The first i positions all read inside the lookup. */
  ghost predicate InRangeBelow(lookup: seq<Option<byte>>, offset: Position, i: nat)
  {
    i == 0 || (InRangeBelow(lookup, offset, i - 1) && LookupIndex(i - 1, offset) < |lookup|)
  }

  /** The first i positions are all empty. */
  ghost predicate AbsentBelow(lookup: seq<Option<byte>>, offset: Position, i: nat)
  {
    i == 0 || (AbsentBelow(lookup, offset, i - 1) && CellAt(lookup, LookupIndex(i - 1, offset)).None?)
  }

  lemma {:induction false} InRangeBelowAt(lookup: seq<Option<byte>>, offset: Position, i: nat, j: nat)
    requires InRangeBelow(lookup, offset, i) && j < i
    ensures LookupIndex(j, offset) < |lookup|
  {
    if j < i - 1 {
      InRangeBelowAt(lookup, offset, i - 1, j);
    }
  }

  lemma {:induction false} FirstOutOfRange(lookup: seq<Option<byte>>, offset: Position, i: nat) returns (j: nat)
    requires !InRangeBelow(lookup, offset, i)
    ensures j < i && LookupIndex(j, offset) >= |lookup|
  {
    if InRangeBelow(lookup, offset, i - 1) {
      j := i - 1;
    } else {
      j := FirstOutOfRange(lookup, offset, i - 1);
    }
  }

  lemma InRangeBelowMeans(lookup: seq<Option<byte>>, offset: Position, i: nat)
    ensures InRangeBelow(lookup, offset, i) <==> forall j :: 0 <= j < i ==> LookupIndex(j, offset) < |lookup|
  {
    if InRangeBelow(lookup, offset, i) {
      forall j | 0 <= j < i
        ensures LookupIndex(j, offset) < |lookup|
      {
        InRangeBelowAt(lookup, offset, i, j);
      }
    } else {
      var j := FirstOutOfRange(lookup, offset, i);
    }
  }

  lemma {:induction false} AbsentBelowAt(lookup: seq<Option<byte>>, offset: Position, i: nat, j: nat)
    requires AbsentBelow(lookup, offset, i) && j < i
    ensures CellAt(lookup, LookupIndex(j, offset)).None?
  {
    if j < i - 1 {
      AbsentBelowAt(lookup, offset, i - 1, j);
    }
  }

  lemma {:induction false} FirstPresent(lookup: seq<Option<byte>>, offset: Position, i: nat) returns (j: nat)
    requires !AbsentBelow(lookup, offset, i)
    ensures j < i && CellAt(lookup, LookupIndex(j, offset)).Some?
  {
    if AbsentBelow(lookup, offset, i - 1) {
      j := i - 1;
    } else {
      j := FirstPresent(lookup, offset, i - 1);
    }
  }

  lemma AbsentBelowMeans(lookup: seq<Option<byte>>, offset: Position, i: nat)
    ensures AbsentBelow(lookup, offset, i) <==> forall j :: 0 <= j < i ==> CellAt(lookup, LookupIndex(j, offset)).None?
  {
    if AbsentBelow(lookup, offset, i) {
      forall j | 0 <= j < i
        ensures CellAt(lookup, LookupIndex(j, offset)).None?
      {
        AbsentBelowAt(lookup, offset, i, j);
      }
    } else {
      var j := FirstPresent(lookup, offset, i);
    }
  }

  /** What the encoder knows after visiting the first i positions: they all
      read inside the lookup, `done` holds their palette indices, `counts`
      how often each index occurs among them, and `onlyAir` whether all were
      empty. */
  ghost predicate Visited(lookup: seq<Option<byte>>, palette: seq<string>, mapping: map<byte, byte>, offset: Position,
                          i: nat, done: seq<nat>, counts: seq<nat>, onlyAir: bool)
  {
    EncoderReady(lookup, palette, mapping) && |palette| <= MaxEntries &&
    i <= ChunkVolume &&
    InRangeBelow(lookup, offset, i) &&
    done == ValuesBelow(lookup, mapping, |palette|, offset, i) &&
    counts == Counts(done, |palette|) &&
    (onlyAir <==> AbsentBelow(lookup, offset, i))
  }

  /** A cell inside the lookup resolves to an index of the palette. */
  lemma CellResolves(lookup: seq<Option<byte>>, palette: seq<string>, mapping: map<byte, byte>, index: nat)
    requires EncoderReady(lookup, palette, mapping) && index < |lookup|
    ensures lookup[index].Some? ==> lookup[index].value in mapping
    ensures EntryValue(lookup[index], mapping, |palette|) < |palette|
  {
  }

  /** Visiting position i, which reads inside the lookup, extends what is
      known by that position's palette index `val`; the primed arguments are
      the state after the visit. */
  lemma VisitStep(lookup: seq<Option<byte>>, palette: seq<string>, mapping: map<byte, byte>, offset: Position,
                  i: nat, done: seq<nat>, counts: seq<nat>, onlyAir: bool,
                  val: nat, i': nat, done': seq<nat>, counts': seq<nat>, onlyAir': bool)
    requires Visited(lookup, palette, mapping, offset, i, done, counts, onlyAir)
    requires i < ChunkVolume && LookupIndex(i, offset) < |lookup|
    requires var cell := lookup[LookupIndex(i, offset)];
      (cell.Some? ==> cell.value in mapping) &&
      val == EntryValue(cell, mapping, |palette|) && (onlyAir' <==> onlyAir && cell.None?)
    requires val < |counts|
    requires i' == i + 1 && done' == done + [val] && counts' == counts[val := counts[val] + 1]
    ensures Visited(lookup, palette, mapping, offset, i', done', counts', onlyAir')
  {
    var n, index := |palette|, LookupIndex(i, offset);
    CellResolves(lookup, palette, mapping, index);
    assert CellAt(lookup, index) == lookup[index];
    ValuesStep(lookup, mapping, n, offset, i, done, val);
    CountsStep(done, val, n, counts, counts');
  }

  lemma ValuesStep(lookup: seq<Option<byte>>, mapping: map<byte, byte>, n: nat, offset: Position,
                   i: nat, done: seq<nat>, val: nat)
    requires n >= 1 && MappingCovers(lookup, mapping)
    requires done == ValuesBelow(lookup, mapping, n, offset, i)
    requires val == EntryValue(CellAt(lookup, LookupIndex(i, offset)), mapping, n)
    ensures done + [val] == ValuesBelow(lookup, mapping, n, offset, i + 1)
  {
  }

  lemma CountsStep(done: seq<nat>, val: nat, n: nat, counts: seq<nat>, counts': seq<nat>)
    requires val < n && counts == Counts(done, n) && counts' == counts[val := counts[val] + 1]
    ensures counts' == Counts(done + [val], n)
  {
    CountsAppend(done, val, n);
  }

  /** The encoding of a chunk that is in range and not all air, given the
      packed bytes and the counts an encoder computed. */
  lemma EncodeChunkSome(lookup: seq<Option<byte>>, palette: seq<string>, mapping: map<byte, byte>, offset: Position,
                        bytes: seq<byte>, counts: seq<nat>)
    requires EncoderReady(lookup, palette, mapping) && |palette| <= MaxEntries
    requires AllInRange(lookup, offset) && !AllAbsent(lookup, offset)
    requires var vals := ChunkValues(lookup, mapping, |palette|, offset);
      Unpack(bytes) == Stream(vals, CeilLog2(|palette|)) &&
      counts == Counts(vals, |palette|)
    ensures EncodeChunk(lookup, palette, mapping, offset) ==
      Ok(Some(EncodedChunk(SignedBytes(bytes),
        Statistics(palette[0], seq(|palette|, k requires 0 <= k < |palette| => BlockState(palette[k], counts[k]))))))
  {
    var n := |palette|;
    var vals := ChunkValues(lookup, mapping, n, offset);
    PackUnpack(bytes);
    assert PackBytes(Stream(vals, CeilLog2(n))) == bytes;
  }

  lemma NoPartialByte(b: nat, q: nat, t: nat)
    requires 8 * b + q == 8 * t && q < 8
    ensures q == 0
  {
  }

  /** Once all positions are visited, what the encoder's loop has
      established determines the encoding. */
  lemma VisitedAll(lookup: seq<Option<byte>>, palette: seq<string>, mapping: map<byte, byte>, offset: Position,
                   i: nat, done: seq<nat>, counts: seq<nat>, onlyAir: bool, bytes: seq<byte>, queue: seq<bool>)
    requires EncoderReady(lookup, palette, mapping)
    requires i == ChunkVolume && Visited(lookup, palette, mapping, offset, i, done, counts, onlyAir)
    requires |queue| < 8 && Unpack(bytes) + queue == Stream(done, CeilLog2(|palette|))
    ensures EncodeChunk(lookup, palette, mapping, offset) ==
      if onlyAir then Ok(None)
      else Ok(Some(EncodedChunk(SignedBytes(bytes),
        Statistics(palette[0], seq(|palette|, k requires 0 <= k < |palette| => BlockState(palette[k], counts[k]))))))
  {
    var w := CeilLog2(|palette|);
    InRangeBelowMeans(lookup, offset, i);
    AbsentBelowMeans(lookup, offset, i);
    assert AllInRange(lookup, offset);
    if !onlyAir {
      assert |Stream(done, w)| == ChunkVolume * w;
      assert 8 * |bytes| + |queue| == 8 * (512 * w);
      NoPartialByte(|bytes|, |queue|, 512 * w);
      assert queue == [];
      EncodeChunkSome(lookup, palette, mapping, offset, bytes, counts);
    }
  }

  /** Encodes one chunk. With 257 entries the writer refuses the first 9-bit
      write, which follows the lookup of the first position. */
  method Encode(lookup: seq<Option<byte>>, palette: seq<string>, mapping: map<byte, byte>, offset: Position)
    returns (r: Result<Option<EncodedChunk>>)
    requires EncoderReady(lookup, palette, mapping)
    ensures r == EncodeChunk(lookup, palette, mapping, offset)
  {
    if |palette| > MaxEntries {
      if LookupIndex(0, offset) >= |lookup| {
        return Err(LookupOutOfRange);
      }
      return Err(EntryTooWide);
    }
    r := EncodeEntries(lookup, palette, mapping, offset);
  }

  /** Encodes a chunk whose entries take at most 8 bits: writes the entries
      with a fresh bit writer, then assembles the data and the statistics. */
  method EncodeEntries(lookup: seq<Option<byte>>, palette: seq<string>, mapping: map<byte, byte>, offset: Position)
    returns (r: Result<Option<EncodedChunk>>)
    requires EncoderReady(lookup, palette, mapping) && |palette| <= MaxEntries
    ensures r == EncodeChunk(lookup, palette, mapping, offset)
  {
    var writer := new BitWriter();
    var inRange, counts, onlyAir, done, visited := WriteEntries(lookup, palette, mapping, offset, writer);
    if !inRange {
      return Err(LookupOutOfRange);
    }
    VisitedAll(lookup, palette, mapping, offset, visited, done, counts, onlyAir, writer.bytes, writer.queue);
    if onlyAir {
      return Ok(None);
    }
    var n := |palette|;
    var states := seq(n, k requires 0 <= k < n => BlockState(palette[k], counts[k]));
    r := Ok(Some(EncodedChunk(SignedBytes(writer.bytes), Statistics(palette[0], states))));
  }

  /** The encoder's loop: visits the 4096 positions in order, resolves each to
      a palette index, writes it with the bit writer and counts it. It stops
      at the first position that reads beyond the lookup. */
  method WriteEntries(lookup: seq<Option<byte>>, palette: seq<string>, mapping: map<byte, byte>, offset: Position,
                      writer: BitWriter)
    returns (inRange: bool, counts: seq<nat>, onlyAir: bool, ghost done: seq<nat>, ghost visited: nat)
    requires EncoderReady(lookup, palette, mapping) && |palette| <= MaxEntries
    requires writer.Valid() && writer.Written() == []
    modifies writer
    ensures writer.Valid()
    ensures !inRange ==> !AllInRange(lookup, offset)
    ensures inRange ==>
      visited == ChunkVolume && Visited(lookup, palette, mapping, offset, visited, done, counts, onlyAir) &&
      writer.Written() == Stream(done, CeilLog2(|palette|))
  {
    var n := |palette|;
    var w := CeilLog2(n);
    CeilLog2AtMost8(n);
    done := [];
    counts := seq(n, k => 0);
    assert counts == Counts([], n);
    onlyAir := true;
    var i := 0;
    while i < ChunkVolume
      invariant 0 <= i <= ChunkVolume
      invariant writer.Valid() && writer.Written() == Stream(done, w)
      invariant Visited(lookup, palette, mapping, offset, i, done, counts, onlyAir)
    {
      if LookupIndex(i, offset) >= |lookup| {
        OutOfRangeAt(lookup, offset, i);
        return false, counts, onlyAir, done, i;
      }
      ghost var before := done;
      var val;
      val, counts, onlyAir, done := VisitPosition(lookup, palette, mapping, offset, i, counts, onlyAir, done);
      WriteValue(writer, w, val, before);
      i := i + 1;
    }
    inRange, visited := true, i;
  }

  /** One turn of the encoder's loop at a position i that reads inside the
      lookup: resolves the cell to its palette index `val` and counts it. */
  method VisitPosition(lookup: seq<Option<byte>>, palette: seq<string>, mapping: map<byte, byte>, offset: Position,
                       i: nat, counts: seq<nat>, onlyAir: bool, ghost done: seq<nat>)
    returns (val: nat, counts': seq<nat>, onlyAir': bool, ghost done': seq<nat>)
    requires i < ChunkVolume && LookupIndex(i, offset) < |lookup|
    requires Visited(lookup, palette, mapping, offset, i, done, counts, onlyAir)
    ensures val < |palette| && done' == done + [val]
    ensures Visited(lookup, palette, mapping, offset, i + 1, done', counts', onlyAir')
  {
    var cell := lookup[LookupIndex(i, offset)];
    CellResolves(lookup, palette, mapping, LookupIndex(i, offset));
    val := EntryValue(cell, mapping, |palette|);
    onlyAir' := onlyAir && cell.None?;
    counts' := counts[val := counts[val] + 1];
    done' := done + [val];
    VisitStep(lookup, palette, mapping, offset, i, done, counts, onlyAir, val, i + 1, done', counts', onlyAir');
  }

  /** Writes one palette index with the bit writer: the written bits are the
      stream of the indices so far. */
  method WriteValue(writer: BitWriter, w: nat, val: nat, ghost done: seq<nat>)
    requires writer.Valid() && writer.Written() == Stream(done, w)
    requires w <= 8 && val < Pow2(w)
    modifies writer
    ensures writer.Valid() && writer.Written() == Stream(done + [val], w)
  {
    StreamAppend(done, val, w);
    writer.Write(w, val);
  }

  /** A position that reads beyond the lookup leaves the chunk out of range. */
  lemma OutOfRangeAt(lookup: seq<Option<byte>>, offset: Position, i: nat)
    requires i < ChunkVolume && LookupIndex(i, offset) >= |lookup|
    ensures !AllInRange(lookup, offset)
  {
  }

  /** Reads palette index i back out of packed chunk data of entry width w. */
  function ReadEntry(data: seq<i8>, w: nat, i: nat): nat
    requires i * w + w <= 8 * |data|
  {
    FromBits(Unpack(UnsignedBytes(data))[i * w .. i * w + w])
  }
}
