/** What an encoded chunk says about the lookup it was read from: which cell
    each position reads, the value stored for each position and where its
    bits sit, and what the statistics count. */
module ChunkFacts {
  import opened Common
  import opened Coordinates
  import opened BitPacking
  import opened ChunkEncoder

  /** With a planner offset, local position (lx, ly, lz) reads the lookup cell
      of model coordinate (lz + ox, lx + oy, ly + oz). */
  lemma ReadsRemappedCell(lx: nat, ly: nat, lz: nat, offset: Position)
    requires lx < BlockSide && ly < BlockSide && lz < BlockSide
    requires offset.x % 16 == 0 && offset.y % 16 == 0 && offset.z % 16 == 0
    ensures lz + offset.x < 256 && lx + offset.y < 256 && ly + offset.z < 256
    ensures LookupIndex(lx * 256 + ly * 16 + lz, offset) ==
      IndexFromPosition(lz + offset.x, lx + offset.y, ly + offset.z)
  {
    PositionFromIndexInverts(lx, ly, lz);
    ModelPositionNoWrap(lx * 256 + ly * 16 + lz, offset);
  }

  lemma {:induction false} ValuesBelowAt(lookup: seq<Option<byte>>, mapping: map<byte, byte>, n: nat, offset: Position, k: nat, i: nat)
    requires n >= 1 && MappingCovers(lookup, mapping)
    requires i < k
    ensures ValuesBelow(lookup, mapping, n, offset, k)[i] == EntryValue(CellAt(lookup, LookupIndex(i, offset)), mapping, n)
  {
    if i < k - 1 {
      ValuesBelowAt(lookup, mapping, n, offset, k - 1, i);
    }
  }

  /** Position i stores the palette index of the cell it reads: its slot's
      index, or the air index n - 1 when the cell is empty; every index is
      below n. */
  lemma ChunkValuesAt(lookup: seq<Option<byte>>, mapping: map<byte, byte>, n: nat, offset: Position, i: nat)
    requires n >= 1 && MappingCovers(lookup, mapping) && MappingBelow(mapping, n)
    requires i < ChunkVolume
    ensures var v := ChunkValues(lookup, mapping, n, offset)[i];
      var cell := CellAt(lookup, LookupIndex(i, offset));
      v < n &&
      (cell.None? ==> v == n - 1) &&
      (cell.Some? ==> cell.value in mapping && v == mapping[cell.value])
  {
    ValuesBelowAt(lookup, mapping, n, offset, ChunkVolume, i);
  }

  /** When every used slot maps below the air index, a position stores the
      air index exactly when its cell is empty. */
  lemma AirValueIffEmpty(lookup: seq<Option<byte>>, mapping: map<byte, byte>, n: nat, offset: Position, i: nat)
    requires n >= 1 && MappingCovers(lookup, mapping) && MappingBelow(mapping, n - 1)
    requires i < ChunkVolume
    ensures ChunkValues(lookup, mapping, n, offset)[i] == n - 1 <==> CellAt(lookup, LookupIndex(i, offset)).None?
  {
    ChunkValuesAt(lookup, mapping, n, offset, i);
  }

  /** A chunk read entirely inside the lookup is dropped exactly when every
      position resolves to the air entry. */
  lemma AirChunkIsDropped(lookup: seq<Option<byte>>, palette: seq<string>, mapping: map<byte, byte>, offset: Position)
    requires EncoderReady(lookup, palette, mapping) && |palette| <= MaxEntries && MappingBelow(mapping, |palette| - 1)
    requires AllInRange(lookup, offset)
    ensures EncodeChunk(lookup, palette, mapping, offset).Ok?
    ensures EncodeChunk(lookup, palette, mapping, offset).value.None? <==>
      forall i :: 0 <= i < ChunkVolume ==> ChunkValues(lookup, mapping, |palette|, offset)[i] == |palette| - 1
  {
    var n := |palette|;
    var vals := ChunkValues(lookup, mapping, n, offset);
    forall i | 0 <= i < ChunkVolume
      ensures vals[i] == n - 1 <==> CellAt(lookup, LookupIndex(i, offset)).None?
    {
      AirValueIffEmpty(lookup, mapping, n, offset, i);
    }
  }

  /** With at most 256 entries the encoding fails exactly when some position
      reads beyond the lookup. */
  lemma EncodeFailsIffOutOfRange(lookup: seq<Option<byte>>, palette: seq<string>, mapping: map<byte, byte>, offset: Position)
    requires EncoderReady(lookup, palette, mapping) && |palette| <= MaxEntries
    ensures EncodeChunk(lookup, palette, mapping, offset).Err? <==>
      exists i :: 0 <= i < ChunkVolume && LookupIndex(i, offset) >= |lookup|
    ensures EncodeChunk(lookup, palette, mapping, offset).Err? ==>
      EncodeChunk(lookup, palette, mapping, offset).fault == LookupOutOfRange
  {
  }

  /** With 257 entries every chunk fails, whatever the lookup holds. */
  lemma WideEntriesFail(lookup: seq<Option<byte>>, palette: seq<string>, mapping: map<byte, byte>, offset: Position)
    requires EncoderReady(lookup, palette, mapping) && |palette| > MaxEntries
    ensures EncodeChunk(lookup, palette, mapping, offset).Err?
    ensures LookupIndex(0, offset) < |lookup| ==> EncodeChunk(lookup, palette, mapping, offset).fault == EntryTooWide
  {
  }

  /** The data of an encoded chunk is the packed stream of its values, and
      its statistics are the palette with the number of occurrences of each
      index. */
  lemma EncodedParts(lookup: seq<Option<byte>>, palette: seq<string>, mapping: map<byte, byte>, offset: Position)
    requires EncoderReady(lookup, palette, mapping)
    requires EncodeChunk(lookup, palette, mapping, offset).Ok?
    requires EncodeChunk(lookup, palette, mapping, offset).value.Some?
    ensures var c := EncodeChunk(lookup, palette, mapping, offset).value.value;
      var vals := ChunkValues(lookup, mapping, |palette|, offset);
      var counts := Counts(vals, |palette|);
      c.data == SignedBytes(PackBytes(Stream(vals, CeilLog2(|palette|)))) &&
      c.statistics.primaryState == palette[0] &&
      |c.statistics.blockStates| == |palette| &&
      forall k :: 0 <= k < |palette| ==>
        c.statistics.blockStates[k] == BlockState(palette[k], counts[k])
  {
    var n := |palette|;
    var vals := ChunkValues(lookup, mapping, n, offset);
    var counts := Counts(vals, n);
    var states := seq(n, k requires 0 <= k < n => BlockState(palette[k], counts[k]));
    assert EncodeChunk(lookup, palette, mapping, offset) ==
      Ok(Some(EncodedChunk(SignedBytes(PackBytes(Stream(vals, CeilLog2(n)))), Statistics(palette[0], states))));
  }

  /** Packing 4096 entries of width w gives 512 * w bytes, and entry i is
      read back from stream bits i*w .. i*w+w-1. */
  lemma PackedLayout(vals: seq<nat>, w: nat, i: nat)
    requires |vals| == ChunkVolume && i < ChunkVolume && vals[i] < Pow2(w)
    ensures var data := SignedBytes(PackBytes(Stream(vals, w)));
      |data| == 512 * w && i * w + w <= 8 * |data| &&
      ReadEntry(data, w, i) == vals[i]
  {
    var s := Stream(vals, w);
    var bytes := PackBytes(s);
    UnsignedOfSigned(bytes);
    assert |s| == 8 * (512 * w);
    UnpackPack(s);
    StreamSlice(vals, w, i);
    FromBitsOfBits(vals[i], w);
  }

  lemma SliceAt(s: seq<bool>, a: nat, w: nat, t: nat)
    requires a + w <= |s| && t < w
    ensures s[a .. a + w][t] == s[a + t]
  {
  }

  /** Bit t of the entry of value i is stream bit k = i*w + t. */
  lemma StreamBit(vals: seq<nat>, w: nat, i: nat, t: nat, k: nat)
    requires i < |vals| && t < w && k == i * w + t
    ensures k < |Stream(vals, w)|
    ensures Stream(vals, w)[k] == Bits(vals[i], w)[t]
  {
    StreamSlice(vals, w, i);
    MulMonotone(0, i, w);
    SliceAt(Stream(vals, w), i * w, w, t);
  }

  /** Bit k of a run of signed bytes: bit k % 8, counted from the least
      significant, of byte k / 8. */
  ghost function DataBit(data: seq<i8>, k: nat): bool
    requires k < 8 * |data|
  {
    Bits(ToUnsigned(data[k / 8]), 8)[k % 8]
  }

  /** Stream bit k of a stream of whole bytes ends up as bit k % 8 of byte
      k / 8 of the packed data. */
  lemma PackedBit(s: seq<bool>, k: nat)
    requires |s| % 8 == 0 && k < |s|
    ensures k < 8 * |SignedBytes(PackBytes(s))|
    ensures DataBit(SignedBytes(PackBytes(s)), k) == s[k]
  {
    var bytes := PackBytes(s);
    UnsignedOfSigned(bytes);
    UnpackPack(s);
    assert Unpack(bytes)[k] == Bits(bytes[k / 8], 8)[k % 8];
    assert UnsignedBytes(SignedBytes(bytes))[k / 8] == ToUnsigned(SignedBytes(bytes)[k / 8]);
  }

  /** Bit t of entry i is bit (i*w + t) % 8 of byte (i*w + t) / 8: bytes are
      filled from their least significant bit. */
  lemma PackedBits(vals: seq<nat>, w: nat, i: nat, t: nat, k: nat)
    requires |vals| == ChunkVolume && i < ChunkVolume && t < w && k == i * w + t
    ensures var data := SignedBytes(PackBytes(Stream(vals, w)));
      k < 8 * |data| && DataBit(data, k) == Bits(vals[i], w)[t]
  {
    var s := Stream(vals, w);
    assert |s| == 8 * (512 * w);
    StreamBit(vals, w, i, t, k);
    PackedBit(s, k);
  }

  /** The packed data of a chunk with entry width w holds 512 * w bytes,
      4096 * w bits, and entry i of it reads back as the palette index stored
      for position i. */
  lemma EncodedLayout(lookup: seq<Option<byte>>, palette: seq<string>, mapping: map<byte, byte>, offset: Position, i: nat)
    requires EncoderReady(lookup, palette, mapping)
    requires EncodeChunk(lookup, palette, mapping, offset).Ok?
    requires EncodeChunk(lookup, palette, mapping, offset).value.Some?
    requires i < ChunkVolume
    ensures var c := EncodeChunk(lookup, palette, mapping, offset).value.value;
      var w := CeilLog2(|palette|);
      w <= 8 && |c.data| == 512 * w && i * w + w <= 8 * |c.data| &&
      ReadEntry(c.data, w, i) == ChunkValues(lookup, mapping, |palette|, offset)[i]
  {
    var n := |palette|;
    var w := CeilLog2(n);
    var vals := ChunkValues(lookup, mapping, n, offset);
    CeilLog2AtMost8(n);
    EncodedParts(lookup, palette, mapping, offset);
    ChunkValuesAt(lookup, mapping, n, offset, i);
    PackedLayout(vals, w, i);
  }

  /** Bit t of the entry of position i is data bit k = i*w + t, that is bit
      k % 8 of byte k / 8 of the data. */
  lemma EncodedBits(lookup: seq<Option<byte>>, palette: seq<string>, mapping: map<byte, byte>, offset: Position, i: nat, t: nat, k: nat)
    requires EncoderReady(lookup, palette, mapping)
    requires EncodeChunk(lookup, palette, mapping, offset).Ok?
    requires EncodeChunk(lookup, palette, mapping, offset).value.Some?
    requires i < ChunkVolume && t < CeilLog2(|palette|) && k == i * CeilLog2(|palette|) + t
    ensures var c := EncodeChunk(lookup, palette, mapping, offset).value.value;
      k < 8 * |c.data| &&
      DataBit(c.data, k) == Bits(ChunkValues(lookup, mapping, |palette|, offset)[i], CeilLog2(|palette|))[t]
  {
    EncodedParts(lookup, palette, mapping, offset);
    PackedBits(ChunkValues(lookup, mapping, |palette|, offset), CeilLog2(|palette|), i, t, k);
  }

  /** The positions of vals holding k. */
  ghost function Occurrences(vals: seq<nat>, k: nat): set<int>
  {
    set j | 0 <= j < |vals| && vals[j] == k
  }

  lemma {:induction false} CountIsOccurrences(vals: seq<nat>, k: nat)
    ensures multiset(vals)[k] == |Occurrences(vals, k)|
  {
    if vals != [] {
      var n := |vals|;
      var front := vals[..n - 1];
      CountIsOccurrences(front, k);
      assert vals == front + [vals[n - 1]];
      var extra: set<int> := if vals[n - 1] == k then {n - 1} else {};
      assert Occurrences(vals, k) == Occurrences(front, k) + extra;
      assert n - 1 !in Occurrences(front, k);
    }
  }

  function Sum(c: seq<nat>): nat
  {
    if c == [] then 0 else Sum(c[..|c| - 1]) + c[|c| - 1]
  }

  /** Adding one to an entry adds one to the sum. */
  lemma {:induction false} SumIncrement(c: seq<nat>, v: nat)
    requires v < |c|
    ensures Sum(c[v := c[v] + 1]) == Sum(c) + 1
  {
    var n := |c|;
    var d := c[v := c[v] + 1];
    if v < n - 1 {
      assert d[..n - 1] == c[..n - 1][v := c[v] + 1];
      SumIncrement(c[..n - 1], v);
    } else {
      assert d[..n - 1] == c[..n - 1];
    }
  }

  lemma SumZeros(n: nat)
    ensures Sum(seq(n, k => 0)) == 0
  {
    if n > 0 {
      assert seq(n, k => 0)[..n - 1] == seq(n - 1, k => 0);
      SumZeros(n - 1);
    }
  }

  /** When every value is below n, the counts of the indices below n add up
      to the number of values. */
  lemma {:induction false} CountsSum(vals: seq<nat>, n: nat)
    requires forall j :: 0 <= j < |vals| ==> vals[j] < n
    ensures Sum(Counts(vals, n)) == |vals|
  {
    if vals == [] {
      assert Counts(vals, n) == seq(n, k => 0);
      SumZeros(n);
    } else {
      var m := |vals|;
      var front := vals[..m - 1];
      CountsSum(front, n);
      assert vals == front + [vals[m - 1]];
      CountsAppend(front, vals[m - 1], n);
      SumIncrement(Counts(front, n), vals[m - 1]);
    }
  }

  /** Total of the counts of a statistics table. */
  function TotalCount(states: seq<BlockState>): nat
  {
    if states == [] then 0 else TotalCount(states[..|states| - 1]) + states[|states| - 1].count
  }

  lemma {:induction false} TotalCountIsSum(states: seq<BlockState>, counts: seq<nat>)
    requires |states| == |counts| && forall k :: 0 <= k < |states| ==> states[k].count == counts[k]
    ensures TotalCount(states) == Sum(counts)
  {
    if states != [] {
      var n := |states|;
      TotalCountIsSum(states[..n - 1], counts[..n - 1]);
    }
  }

  /** The statistics of an encoded chunk: one entry per palette entry in
      palette order, entry k counting the positions that resolve to k, the
      counts adding up to 4096, and the primary state the first palette entry
      whatever the counts are. */
  lemma StatisticsCount(lookup: seq<Option<byte>>, palette: seq<string>, mapping: map<byte, byte>, offset: Position)
    requires EncoderReady(lookup, palette, mapping)
    requires EncodeChunk(lookup, palette, mapping, offset).Ok?
    requires EncodeChunk(lookup, palette, mapping, offset).value.Some?
    ensures var st := EncodeChunk(lookup, palette, mapping, offset).value.value.statistics;
      var vals := ChunkValues(lookup, mapping, |palette|, offset);
      st.primaryState == palette[0] &&
      |st.blockStates| == |palette| &&
      (forall k :: 0 <= k < |palette| ==>
        st.blockStates[k].blockInformation == palette[k] &&
        st.blockStates[k].count == |Occurrences(vals, k)|) &&
      TotalCount(st.blockStates) == ChunkVolume
  {
    var n := |palette|;
    var vals := ChunkValues(lookup, mapping, n, offset);
    var st := EncodeChunk(lookup, palette, mapping, offset).value.value.statistics;
    EncodedParts(lookup, palette, mapping, offset);
    forall k | 0 <= k < n
      ensures st.blockStates[k].count == |Occurrences(vals, k)|
    {
      CountIsOccurrences(vals, k);
    }
    forall j | 0 <= j < ChunkVolume
      ensures vals[j] < n
    {
      ChunkValuesAt(lookup, mapping, n, offset, j);
    }
    CountsSum(vals, n);
    TotalCountIsSum(st.blockStates, Counts(vals, n));
  }

  /** The positions whose lookup cell is empty. */
  ghost function EmptyPositions(lookup: seq<Option<byte>>, offset: Position): set<int>
  {
    set i | 0 <= i < ChunkVolume && CellAt(lookup, LookupIndex(i, offset)).None?
  }

  /** With every used slot mapped below the air index, the positions storing
      the air index are exactly the empty ones. */
  lemma AirPositions(lookup: seq<Option<byte>>, mapping: map<byte, byte>, n: nat, offset: Position)
    requires n >= 1 && MappingCovers(lookup, mapping) && MappingBelow(mapping, n - 1)
    ensures Occurrences(ChunkValues(lookup, mapping, n, offset), n - 1) == EmptyPositions(lookup, offset)
  {
    var vals := ChunkValues(lookup, mapping, n, offset);
    forall i | 0 <= i < ChunkVolume
      ensures vals[i] == n - 1 <==> CellAt(lookup, LookupIndex(i, offset)).None?
    {
      AirValueIffEmpty(lookup, mapping, n, offset, i);
    }
  }

  /** With every used slot mapped below the air index, the air entry counts
      exactly the positions whose cell is empty. */
  lemma AirCountsEmptyCells(lookup: seq<Option<byte>>, palette: seq<string>, mapping: map<byte, byte>, offset: Position)
    requires EncoderReady(lookup, palette, mapping) && MappingBelow(mapping, |palette| - 1)
    requires EncodeChunk(lookup, palette, mapping, offset).Ok?
    requires EncodeChunk(lookup, palette, mapping, offset).value.Some?
    ensures var st := EncodeChunk(lookup, palette, mapping, offset).value.value.statistics;
      |st.blockStates| == |palette| &&
      st.blockStates[|palette| - 1].count == |EmptyPositions(lookup, offset)|
  {
    StatisticsCount(lookup, palette, mapping, offset);
    AirPositions(lookup, mapping, |palette|, offset);
  }
}
