/** The chunk palette shared by every chunk of a model (the middle of
    `create_patterns`): one entry per used colour slot, in the order the
    used-slot set is iterated, then one air entry; and the map from colour
    slot to palette index. */
module SharedPalette {
  import opened Common
  import opened VoxelLookup
  import opened ColourMatch

  /** A colour of the model's palette; matching ignores alpha. */
  datatype Colour = Colour(r: byte, g: byte, b: byte, a: byte)
  datatype Rgb = Rgb(r: byte, g: byte, b: byte)

  function RgbOf(c: Colour): Rgb
  {
    Rgb(c.r, c.g, c.b)
  }

  /** Chunk-palette entries (block-state JSON strings) and the map from colour
      slot to entry index. */
  datatype Palette = Palette(entries: seq<string>, mapping: map<byte, byte>)

  const AirBlock: string := "minecraft:air"

  /** The block-state JSON object `{"Name":"<block>"}` of a palette entry. */
  function StateJson(block: string): string
  {
    "{\"Name\":\"" + block + "\"}"
  }

  /** Reads the block name back out of a block-state JSON object. */
  function BlockOfState(s: string): string
    requires |s| >= 11
  {
    s[9..|s| - 2]
  }

  lemma StateJsonRoundTrip(block: string)
    ensures |StateJson(block)| == |block| + 11
    ensures BlockOfState(StateJson(block)) == block
  {
  }

  /** A palette entry determines its block: different blocks give different
      block-state objects. */
  lemma StateJsonInjective(a: string, b: string)
    requires StateJson(a) == StateJson(b)
    ensures a == b
  {
    StateJsonRoundTrip(a);
    StateJsonRoundTrip(b);
  }

  predicate Distinct(s: seq<byte>)
  {
    forall i, j :: 0 <= i < j < |s| ==> s[i] != s[j]
  }

  /** `order` lists every element of `slots` exactly once: one possible
      iteration order of the hash set. */
  ghost predicate Enumerates(order: seq<byte>, slots: set<byte>)
  {
    Distinct(order) &&
    (forall j :: 0 <= j < |order| ==> order[j] in slots) &&
    (forall s :: s in slots ==> s in order)
  }

  lemma {:induction false} RangeSubsetCard(S: set<int>, n: nat)
    requires forall x :: x in S ==> 0 <= x < n
    ensures |S| <= n
  {
    if n == 0 {
      assert forall x :: x in S ==> false;
      assert S == {};
    } else {
      RangeSubsetCard(S - {n - 1}, n - 1);
    }
  }

  lemma {:induction false} DistinctCard(s: seq<byte>)
    requires Distinct(s)
    ensures |(set x: byte | x in s)| == |s|
  {
    if s != [] {
      var n := |s|;
      var front := s[..n - 1];
      assert Distinct(front) by {
        forall i, j | 0 <= i < j < |front| ensures front[i] != front[j] {
          assert front[i] == s[i] && front[j] == s[j];
        }
      }
      DistinctCard(front);
      assert (set x: byte | x in s) == (set x: byte | x in front) + {s[n - 1]} by {
        assert s == front + [s[n - 1]];
      }
    }
  }

  lemma DistinctPrefix(s: seq<byte>, j: nat)
    requires Distinct(s) && j <= |s|
    ensures Distinct(s[..j])
  {
    var a := s[..j];
    forall p, q | 0 <= p < q < j
      ensures a[p] != a[q]
    {
      assert a[p] == s[p] && a[q] == s[q];
    }
  }

  /** A palette index fits a u8: there are at most 256 distinct slots. */
  lemma DistinctAtMost256(s: seq<byte>)
    requires Distinct(s)
    ensures |s| <= 256
  {
    DistinctCard(s);
    RangeSubsetCard(set x: byte | x in s, 256);
  }

  /** The material entries, one per slot in iteration order: the slot's colour
      (a missing colour aborts) matched to its closest block (which aborts for
      an empty block palette), wrapped as block-state JSON. */
  function MaterialEntries(order: seq<byte>, colours: seq<Colour>, closest: Rgb -> Result<string>): (r: Result<seq<string>>)
    ensures r.Ok? ==> |r.value| == |order|
  {
    if order == [] then Ok([])
    else
      match MaterialEntries(order[..|order| - 1], colours, closest)
      case Err(f) => Err(f)
      case Ok(done) =>
        var slot := order[|order| - 1];
        if slot >= |colours| then Err(MissingColour)
        else
          match closest(RgbOf(colours[slot]))
          case Err(f) => Err(f)
          case Ok(block) => Ok(done + [StateJson(block)])
  }

  /** Once a prefix of the iteration aborts, the whole iteration aborts the same way. */
  lemma {:induction false} MaterialEntriesFaultSticks(order: seq<byte>, j: nat, colours: seq<Colour>, closest: Rgb -> Result<string>)
    requires j <= |order|
    requires MaterialEntries(order[..j], colours, closest).Err?
    ensures MaterialEntries(order, colours, closest) == MaterialEntries(order[..j], colours, closest)
    decreases |order| - j
  {
    if j < |order| {
      var n := |order|;
      var front := order[..n - 1];
      assert front[..j] == order[..j];
      MaterialEntriesFaultSticks(front, j, colours, closest);
    } else {
      assert order[..j] == order;
    }
  }

  /** Entry j is the block state of the block closest to slot order[j]'s colour. */
  lemma {:induction false} MaterialEntriesAt(order: seq<byte>, colours: seq<Colour>, closest: Rgb -> Result<string>)
    requires MaterialEntries(order, colours, closest).Ok?
    ensures forall j :: 0 <= j < |order| ==>
      order[j] < |colours| && closest(RgbOf(colours[order[j]])).Ok? &&
      MaterialEntries(order, colours, closest).value[j] == StateJson(closest(RgbOf(colours[order[j]])).value)
  {
    if order != [] {
      var n := |order|;
      var front := order[..n - 1];
      MaterialEntriesAt(front, colours, closest);
      forall j | 0 <= j < n - 1 ensures order[j] == front[j] { }
    }
  }

  /** The map the iteration inserts into, one slot at a time: each slot goes
      to the number of entries pushed before it. */
  function MappingOf(order: seq<byte>): map<byte, byte>
    requires |order| <= 256
  {
    if order == [] then map[]
    else
      var n := |order|;
      MappingOf(order[..n - 1])[order[n - 1] := n - 1]
  }

  /** With distinct slots, slot order[j] goes to palette index j and nothing
      else is mapped. */
  lemma {:induction false} MappingOfAt(order: seq<byte>)
    requires Distinct(order)
    ensures |order| <= 256
    ensures forall j :: 0 <= j < |order| ==> order[j] in MappingOf(order) && MappingOf(order)[order[j]] == j
    ensures forall s :: s in MappingOf(order) ==> s in order
  {
    DistinctAtMost256(order);
    if order != [] {
      var n := |order|;
      var front := order[..n - 1];
      DistinctPrefix(order, n - 1);
      MappingOfAt(front);
      forall j | 0 <= j < n - 1
        ensures order[j] == front[j] && order[j] != order[n - 1]
      {
      }
    }
  }

  /** The shared chunk palette, or the abort that building it meets. */
  function PaletteOf(order: seq<byte>, colours: seq<Colour>, closest: Rgb -> Result<string>): Result<Palette>
    requires Distinct(order)
  {
    DistinctAtMost256(order);
    match MaterialEntries(order, colours, closest)
    case Err(f) => Err(f)
    case Ok(entries) => Ok(Palette(entries + [StateJson(AirBlock)], MappingOf(order)))
  }

  lemma MappingOfAppend(order: seq<byte>, j: nat, mapping: map<byte, byte>, mapping': map<byte, byte>)
    requires |order| <= 256 && j < |order|
    requires mapping == MappingOf(order[..j]) && mapping' == mapping[order[j] := j]
    ensures mapping' == MappingOf(order[..j + 1])
  {
    var b := order[..j + 1];
    assert b[..j] == order[..j];
    assert b[|b| - 1] == order[j];
  }

  /** A slot whose colour is missing, or whose match aborts, ends the
      iteration with that abort. */
  lemma MaterialEntriesStopsAt(order: seq<byte>, j: nat, colours: seq<Colour>, closest: Rgb -> Result<string>)
    requires j < |order| && MaterialEntries(order[..j], colours, closest).Ok?
    ensures order[j] >= |colours| ==> MaterialEntries(order, colours, closest) == Err(MissingColour)
    ensures order[j] < |colours| && closest(RgbOf(colours[order[j]])).Err? ==>
      MaterialEntries(order, colours, closest) == Err(closest(RgbOf(colours[order[j]])).fault)
  {
    var b := order[..j + 1];
    assert b[..j] == order[..j];
    assert b[|b| - 1] == order[j];
    if order[j] >= |colours| || closest(RgbOf(colours[order[j]])).Err? {
      MaterialEntriesFaultSticks(order, j + 1, colours, closest);
    }
  }

  lemma MaterialEntriesAppend(order: seq<byte>, j: nat, colours: seq<Colour>, closest: Rgb -> Result<string>,
                              entries: seq<string>, block: string)
    requires j < |order| && order[j] < |colours|
    requires MaterialEntries(order[..j], colours, closest) == Ok(entries)
    requires closest(RgbOf(colours[order[j]])) == Ok(block)
    ensures MaterialEntries(order[..j + 1], colours, closest) == Ok(entries + [StateJson(block)])
  {
    var b := order[..j + 1];
    assert b[..j] == order[..j];
    assert b[|b| - 1] == order[j];
  }

  /** Builds the palette and the slot map by iterating the used slots in
      the given order, pushing one entry and inserting one mapping per slot,
      then pushing the air entry. */
  method BuildPalette(order: seq<byte>, colours: seq<Colour>, closest: Rgb -> Result<string>) returns (r: Result<Palette>)
    requires Distinct(order)
    ensures r == PaletteOf(order, colours, closest)
  {
    DistinctAtMost256(order);
    var mapping: map<byte, byte> := map[];
    var entries: seq<string> := [];
    var j := 0;
    while j < |order|
      invariant 0 <= j <= |order|
      invariant MaterialEntries(order[..j], colours, closest) == Ok(entries)
      invariant |entries| == j
      invariant mapping == MappingOf(order[..j])
    {
      var slot := order[j];
      if slot >= |colours| {
        MaterialEntriesStopsAt(order, j, colours, closest);
        return Err(MissingColour);
      }
      var block := closest(RgbOf(colours[slot]));
      if block.Err? {
        MaterialEntriesStopsAt(order, j, colours, closest);
        return Err(block.fault);
      }
      ghost var mapping0, entries0 := mapping, entries;
      mapping := mapping[slot := |entries|];
      entries := entries + [StateJson(block.value)];
      MappingOfAppend(order, j, mapping0, mapping);
      MaterialEntriesAppend(order, j, colours, closest, entries0, block.value);
      j := j + 1;
    }
    assert order[..j] == order;
    entries := entries + [StateJson(AirBlock)];
    r := Ok(Palette(entries, mapping));
  }

  /** An enumeration of a set is as long as the set is large. */
  lemma EnumeratesCard(order: seq<byte>, slots: set<byte>)
    requires Enumerates(order, slots)
    ensures |slots| == |order|
  {
    DistinctCard(order);
    assert (set x: byte | x in order) == slots;
  }

  /** The slot map holds exactly the enumerated slots. */
  lemma MappingKeys(order: seq<byte>, slots: set<byte>)
    requires Enumerates(order, slots)
    ensures |order| <= 256 && MappingOf(order).Keys == slots
  {
    MappingOfAt(order);
  }

  /** The slot map sends each slot to its own position in the order. */
  lemma MappingOfInverse(order: seq<byte>, s: byte)
    requires Distinct(order) && |order| <= 256 && s in MappingOf(order)
    ensures MappingOf(order)[s] < |order| && order[MappingOf(order)[s]] == s
  {
    MappingOfAt(order);
    var j :| 0 <= j < |order| && order[j] == s;
  }

  /** The palette entry a mapped slot points at holds its closest block. */
  lemma PaletteEntryAt(order: seq<byte>, colours: seq<Colour>, closest: Rgb -> Result<string>, s: byte)
    requires Distinct(order) && PaletteOf(order, colours, closest).Ok?
    requires |order| <= 256 && s in MappingOf(order)
    ensures var p := PaletteOf(order, colours, closest).value;
      p.mapping == MappingOf(order) &&
      |p.entries| == |order| + 1 &&
      p.mapping[s] < |p.entries| - 1 &&
      s < |colours| && closest(RgbOf(colours[s])).Ok? &&
      p.entries[p.mapping[s]] == StateJson(closest(RgbOf(colours[s])).value)
  {
    var entries := MaterialEntries(order, colours, closest).value;
    MappingOfInverse(order, s);
    MaterialEntriesAt(order, colours, closest);
    var j := MappingOf(order)[s];
    assert (entries + [StateJson(AirBlock)])[j] == entries[j];
  }

  /** The shape of the shared palette: one entry per used slot plus air, air
      last, every used slot mapped to a distinct index below the air index,
      and that index holding the slot's closest block. */
  lemma PaletteShape(voxels: seq<Voxel>, order: seq<byte>, colours: seq<Colour>, closest: Rgb -> Result<string>)
    requires Enumerates(order, UsedSlots(voxels))
    requires PaletteOf(order, colours, closest).Ok?
    ensures var p := PaletteOf(order, colours, closest).value;
      |p.entries| == |UsedSlots(voxels)| + 1 &&
      |p.entries| <= 257 &&
      p.entries[|p.entries| - 1] == StateJson(AirBlock) &&
      p.mapping.Keys == UsedSlots(voxels) &&
      (forall s :: s in p.mapping ==>
         p.mapping[s] < |p.entries| - 1 &&
         s < |colours| && closest(RgbOf(colours[s])).Ok? &&
         p.entries[p.mapping[s]] == StateJson(closest(RgbOf(colours[s])).value)) &&
      (forall s, s' :: s in p.mapping && s' in p.mapping && s != s' ==> p.mapping[s] != p.mapping[s'])
  {
    var p := PaletteOf(order, colours, closest).value;
    EnumeratesCard(order, UsedSlots(voxels));
    DistinctAtMost256(order);
    MappingKeys(order, UsedSlots(voxels));
    forall s | s in p.mapping
      ensures p.mapping[s] < |p.entries| - 1 &&
        s < |colours| && closest(RgbOf(colours[s])).Ok? &&
        p.entries[p.mapping[s]] == StateJson(closest(RgbOf(colours[s])).value)
    {
      PaletteEntryAt(order, colours, closest, s);
    }
    forall s, s' | s in p.mapping && s' in p.mapping && s != s'
      ensures p.mapping[s] != p.mapping[s']
    {
      MappingOfInverse(order, s);
      MappingOfInverse(order, s');
    }
  }

  /** Building never aborts when every slot has a colour and every colour
      is matched. */
  lemma {:induction false} MaterialEntriesOk(order: seq<byte>, colours: seq<Colour>, closest: Rgb -> Result<string>)
    requires forall j :: 0 <= j < |order| ==> order[j] < |colours| && closest(RgbOf(colours[order[j]])).Ok?
    ensures MaterialEntries(order, colours, closest).Ok?
  {
    if order != [] {
      var front := order[..|order| - 1];
      forall j | 0 <= j < |front| ensures front[j] == order[j] { }
      MaterialEntriesOk(front, colours, closest);
    }
  }

  /** The colour match `create_patterns` uses: `closest_block` of the block
      palette, applied to a slot colour converted by `convert` (the sRGB to
      LCh conversion, left abstract). */
  function ClosestOf<C>(blocks: seq<BlockColour<C>>, convert: Rgb -> C, difference: (C, C) -> real): Rgb -> Result<string>
  {
    t => ClosestBlock(blocks, convert(t), difference)
  }

  /** With `closest_block` as the colour match and a colour for every used
      slot: an empty block palette aborts the palette with
      `EmptyBlockPalette` as soon as one slot is used; otherwise building
      succeeds and every material entry names a block of minimal difference
      to its slot's colour. */
  lemma ClosestBlockPalette<C>(blocks: seq<BlockColour<C>>, convert: Rgb -> C, difference: (C, C) -> real,
                               order: seq<byte>, colours: seq<Colour>)
    requires Distinct(order)
    requires forall j :: 0 <= j < |order| ==> order[j] < |colours|
    ensures var p := PaletteOf(order, colours, ClosestOf(blocks, convert, difference));
      (|blocks| == 0 && |order| > 0 ==> p == Err(EmptyBlockPalette)) &&
      (|blocks| > 0 ==>
         p.Ok? &&
         forall j :: 0 <= j < |order| ==>
           var target := convert(RgbOf(colours[order[j]]));
           exists k :: 0 <= k < |blocks| && p.value.entries[j] == StateJson(blocks[k].block) &&
             forall i :: 0 <= i < |blocks| ==> difference(blocks[k].colour, target) <= difference(blocks[i].colour, target))
  {
    var closest := ClosestOf(blocks, convert, difference);
    if |blocks| == 0 && |order| > 0 {
      assert order[..0] == [];
      assert closest(RgbOf(colours[order[0]])) == ClosestBlock(blocks, convert(RgbOf(colours[order[0]])), difference);
      MaterialEntriesStopsAt(order, 0, colours, closest);
    }
    if |blocks| > 0 {
      forall j | 0 <= j < |order| ensures closest(RgbOf(colours[order[j]])).Ok? {
        assert closest(RgbOf(colours[order[j]])) == ClosestBlock(blocks, convert(RgbOf(colours[order[j]])), difference);
      }
      MaterialEntriesOk(order, colours, closest);
      MaterialEntriesAt(order, colours, closest);
      var entries := MaterialEntries(order, colours, closest).value;
      var p := PaletteOf(order, colours, closest);
      assert p.value.entries == entries + [StateJson(AirBlock)];
      forall j | 0 <= j < |order|
        ensures var target := convert(RgbOf(colours[order[j]]));
          exists k :: 0 <= k < |blocks| && p.value.entries[j] == StateJson(blocks[k].block) &&
            forall i :: 0 <= i < |blocks| ==> difference(blocks[k].colour, target) <= difference(blocks[i].colour, target)
      {
        var target := convert(RgbOf(colours[order[j]]));
        assert p.value.entries[j] == entries[j];
        assert closest(RgbOf(colours[order[j]])) == ClosestBlock(blocks, target, difference);
      }
    }
  }
}
