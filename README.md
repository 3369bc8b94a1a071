# Voxel models to Chisels and Bits patterns, modelled in Dafny

`chisels-and-importers` converts the models of a MagicaVoxel file into
pattern files for the Chisels and Bits game mod. For each selected model,
`create_patterns` does four things:

1. It fills a dense lookup cube of side 255 with the colour slot of every
   voxel.
2. It builds one chunk palette for the whole model: per used colour slot,
   the block whose colour is closest, then air last.
3. It cuts the model into 16×16×16 chunks. x is the outermost loop and z
   the innermost.
4. It encodes every chunk that is not all air with `model_to_data` and
   writes it as a numbered pattern file. An encoded chunk is a
   little-endian bit-packed array of palette indices, each
   `ceil(log2(palette size))` bits wide, plus per-entry counts.

`main` chooses which models to export and gives each one a prefix for its
file names.

The project models this core, all of it in `src/main.rs`:

- `coordinates.dfy`: `position_from_index` and `index_from_position`.
- `voxel_lookup.dfy`: building the lookup (an in-place array loop).
- `shared_palette.dfy`: building the palette and the slot map (a loop over
  the used-slot set).
- `colour_match.dfy`: `closest_block`, with an abstract colour difference.
- `bitpacking.dfy`: the bit writer, a class with `bytes` and `queue`
  fields. Its `Write` appends the low w bits of a value, least
  significant bit first. The file also has the packing and unpacking
  functions that specify the writer.
- `chunk_encoder.dfy` and `chunk_facts.dfy`: `model_to_data`.
  - `EncodeChunk` is the reference function.
  - The methods `Encode`, `EncodeEntries` and `WriteEntries` run the
    encoder loop against a `BitWriter`.
  - The lemmas state the layout of the data and the meaning of the
    statistics.
- `chunk_planner.dfy`: the chunk grid, the offsets, the file names and the
  triple chunk loop of `create_patterns`. The reference function is `Run`.
  `CreatePatterns` ties the three steps of `create_patterns` together.
- `model_selection.dfy`: model selection in `main`, the prefixes, and the
  export loop over the selected models.
- `decimal.dfy` and `common.dfy`: decimal rendering of counters, and the
  shared types.

Every panic of the modelled core that can occur (`unwrap`, `expect`, an
out-of-bounds index) is an explicit error value `Fault`, and the run stops
at the first one. The panics of the parts left out (loading, JSON parsing,
writing files) are not modelled. Some `unwrap`s cannot fail on the
palette and lookup that `create_patterns` builds: the slot-map lookup and
the count update of `model_to_data`, and a value too wide for its entry.
The model proves them unreachable (`CreatedReady`, the preconditions of
`BitWriter.Write`) rather than giving them a `Fault`.

Behaviour of the code that the model keeps and proves:

- **Partial output on an abort.** Pattern files are written one by one
  inside the chunk loop, so an abort leaves the files already written.
  `PlanOutcome` holds both the files and the abort.
- **The lookup has side 255, not 256.** `VOXEL_MAX_SIDE` is 255, so several
  coordinates misbehave:
  - A coordinate of 255 in y or z lands in the cell of a neighbouring
    position (`IndexAliasesOnY`, `IndexAliasesOnZ`, `VoxelOnSideAliases`).
  - An x of 255 reads beyond the array (`IndexInRangeIff`).
  - Every chunk of the sixteenth x slab reads x = 255, so a model longer
    than 240 voxels in x, with non-zero y and z sides, always aborts
    (`EdgeChunkAborts`, `WideModelAborts`).
- **A palette of 257 entries aborts.** That is 256 used slots plus air. It
  needs 9-bit entries, and the writer refuses to write 9 bits of a `u8`.
  The first chunk therefore aborts (`WideEntriesFail`).
- **Chunk offsets are truncated to `u8`.** With them the in-chunk additions
  never wrap (`ChunkOffset`, `ModelPositionNoWrap`).

## Model

| member | source | states |
|---|---|---|
| Coordinates.PositionFromIndex | src/main.rs:303-308 | for an index below 4096, the three coordinates are below 16 and x·256 + y·16 + z gives the index back |
| Coordinates.PositionFromIndexInverts | src/main.rs:303-308 | every local position (x, y, z) below 16 is recovered from its linear index |
| Coordinates.IndexDecodes | src/main.rs:310-314 | for coordinates below 255 the dense index is inside the lookup, and division and remainder by 255 give the coordinates back |
| Coordinates.IndexInjective | src/main.rs:310-314 | below 255, distinct coordinates have distinct dense indices |
| Coordinates.IndexInRangeIff | src/main.rs:100-101 | a u8 coordinate triple indexes inside the 255³ lookup exactly when x < 255, except for (254, 255, ·) and (254, 254, 255) |
| Coordinates.IndexAliasesOnY | src/main.rs:312-314 | y = 255 gives the same index as (x + 1, 0, z) |
| Coordinates.IndexAliasesOnZ | src/main.rs:312-314 | z = 255 gives the same index as (x, y + 1, 0) |
| VoxelLookup.BuildLookup | src/main.rs:99-108 | succeeds exactly when every voxel's index is in range (else the `VoxelOutOfRange` abort); the array then holds, per cell, the slot of the last voxel written there, and `used` is the set of slots of all voxels |
| VoxelLookup.LastSlotIsUsed | src/main.rs:103-107 | a non-empty cell holds a used slot, written there by some voxel |
| VoxelLookup.LookupFindsVoxel | src/main.rs:103-107 | for voxels inside the 255-cube, the cell at a voxel's position holds its slot unless a later voxel has the same position |
| VoxelLookup.LookupEmptyCell | src/main.rs:100-101 | a cell no voxel maps to stays empty |
| VoxelLookup.VoxelOnSideAliases | src/main.rs:103-107 | in any model, a voxel at (x, 255, z) with x < 254 whose cell no later voxel overwrites shows up in the cell of (x + 1, 0, z) |
| ColourMatch.FirstMinimum | src/main.rs:198-204 | returns the first index whose difference is minimal: no entry is smaller, all earlier entries are strictly larger (what a stable sort and taking the head give) |
| ColourMatch.ClosestBlock | src/main.rs:193-206 | aborts exactly for an empty block palette; otherwise returns the block of the first entry with minimal difference to the target |
| SharedPalette.StateJsonInjective | src/main.rs:118-120 | a block-state entry determines its block: different blocks give different `{"Name":"<block>"}` entries |
| SharedPalette.DistinctAtMost256 | src/main.rs:117 | there are at most 256 distinct slots, so `chisel_palette.len() as u8` never truncates |
| SharedPalette.EnumeratesCard | src/main.rs:112-113 | an iteration order of the used-slot set is as long as the set |
| SharedPalette.MaterialEntriesAt | src/main.rs:113-121 | when building succeeds, entry j is the block-state JSON of the block closest to the colour of the j-th slot iterated |
| SharedPalette.MaterialEntriesFaultSticks | src/main.rs:114-115 | once an abort occurs in a prefix of the iteration, the whole iteration ends with that abort |
| SharedPalette.MaterialEntriesStopsAt | src/main.rs:114-115 | a slot with no colour aborts with `MissingColour`; a slot whose colour matching aborts ends the iteration with that abort |
| SharedPalette.MappingOfAt | src/main.rs:117 | the j-th slot iterated is mapped to palette index j, and only iterated slots are mapped |
| SharedPalette.MappingKeys | src/main.rs:111-117 | the slot map's keys are exactly the used slots |
| SharedPalette.MappingOfInverse | src/main.rs:117 | the index of a mapped slot points back at that slot in the iteration order |
| SharedPalette.PaletteEntryAt | src/main.rs:113-125 | the entry a mapped slot points at, which is below the air index, holds the slot's closest block |
| SharedPalette.PaletteShape | src/main.rs:110-125 | one entry per used slot plus air (at most 257 entries); air is last; the map is injective; each used slot indexes its own closest block |
| SharedPalette.ClosestBlockPalette | src/main.rs:113-121 | with `closest_block` as the colour match and a colour for every used slot: an empty block palette aborts with `EmptyBlockPalette` once a slot is used; otherwise building succeeds and each entry names a block of minimal difference to its slot's colour |
| SharedPalette.BuildPalette | src/main.rs:110-125 | the loop builds exactly `PaletteOf`, the reference palette and map, or its abort |
| BitPacking.CeilLog2 | src/main.rs:266 | the entry width w is the least with n ≤ 2^w |
| BitPacking.CeilLog2Unique | src/main.rs:266 | any w with 2^(w-1) < n ≤ 2^w is the entry width |
| BitPacking.CeilLog2AtMost8 | src/main.rs:266 | up to 256 entries the width is at most 8 bits |
| BitPacking.FromBitsOfBits | src/main.rs:284 | the low w bits of v < 2^w, read back least significant bit first, give v |
| BitPacking.BitsOfFromBits | src/main.rs:284 | writing back the value of a bit string gives the same bits |
| BitPacking.StreamSlice | src/main.rs:268-286 | in the written stream, bits i·w .. i·w + w − 1 are the bits of entry i |
| BitPacking.PackUnpack | src/main.rs:255-256 | packing the bits of a byte vector gives the bytes back |
| BitPacking.UnpackPack | src/main.rs:255-256 | the bytes of a whole-byte bit stream unpack to the stream |
| BitPacking.SignedRoundTrip | src/main.rs:293 | `b as i8` read back as u8 gives b |
| BitPacking.UnsignedOfSigned | src/main.rs:293 | the i8 data converts back to the bytes written |
| BitPacking.BitWriter.constructor | src/main.rs:256 | a new writer has written nothing |
| BitPacking.BitWriter.Write | src/main.rs:284 | the bits written so far grow by exactly the low w bits of v, least significant first; fewer than 8 stay queued |
| ChunkEncoder.AddU8 | src/main.rs:270-272 | u8 addition equals plain addition when it does not overflow |
| ChunkEncoder.ModelPositionNoWrap | src/main.rs:269-274 | with offsets that are multiples of 16, local (x, y, z) reads model (z + ox, x + oy, y + oz), and nothing wraps |
| ChunkEncoder.CountsAppend | src/main.rs:285 | counting one more value adds one to the count of that value only |
| ChunkEncoder.InRangeBelowMeans | src/main.rs:274-275 | the loop's in-range record is equivalent to every earlier position reading inside the lookup |
| ChunkEncoder.AbsentBelowMeans | src/main.rs:276-283 | `only_air` is equivalent to every earlier position being empty |
| ChunkEncoder.VisitedAll | src/main.rs:288-298 | after all 4096 positions, the loop's data, counts and `only_air` determine the chunk's encoding |
| ChunkEncoder.Encode | src/main.rs:247-299 | the encoder returns exactly `EncodeChunk`: the `EntryTooWide` abort past 256 entries, the `LookupOutOfRange` abort, nothing for an all-air chunk, or the data and the statistics |
| ChunkEncoder.EncodeEntries | src/main.rs:253-299 | for at most 256 entries, writing and assembling gives exactly `EncodeChunk` |
| ChunkEncoder.WriteEntries | src/main.rs:266-286 | the loop stops only at a position that reads beyond the lookup; after all positions the bits written are the stream of the palette indices, and the counts and `only_air` are those of the indices |
| ChunkEncoder.VisitPosition | src/main.rs:274-285 | one position resolves to the slot's mapped index or to the air index, below the palette size, and updates the counts and `only_air` |
| ChunkEncoder.WriteValue | src/main.rs:284 | writing one index extends the written bits to the stream of one more value |
| ChunkFacts.ReadsRemappedCell | src/main.rs:269-274 | the local position (lx, ly, lz) reads model cell (lz + ox, lx + oy, ly + oz) |
| ChunkFacts.ValuesBelowAt | src/main.rs:274-283 | the i-th palette index recorded is that of the cell position i reads |
| ChunkFacts.ChunkValuesAt | src/main.rs:276-283 | each position's index is below the palette size: the air index for an empty cell, the slot's mapped index otherwise |
| ChunkFacts.AirValueIffEmpty | src/main.rs:276-283 | a position gets the air index exactly when its cell is empty |
| ChunkFacts.AirChunkIsDropped | src/main.rs:288-290 | an in-range chunk is dropped exactly when every position resolves to air |
| ChunkFacts.EncodeFailsIffOutOfRange | src/main.rs:274-275 | up to 256 entries, encoding aborts exactly when some position reads beyond the lookup, and then with `LookupOutOfRange` |
| ChunkFacts.WideEntriesFail | src/main.rs:266-284 | with more than 256 entries encoding always aborts, with `EntryTooWide` once the first position reads inside the lookup |
| ChunkFacts.EncodedParts | src/main.rs:292-298 | the data is the packed stream of the indices as i8; the primary state is palette entry 0; block state k is entry k with its count |
| ChunkFacts.PackedLayout | src/main.rs:255-293 | 4096 entries of w bits make 512·w bytes, and entry i reads back from bits i·w .. i·w + w − 1 |
| ChunkFacts.StreamBit | src/main.rs:284 | bit t of entry i is stream bit i·w + t |
| ChunkFacts.PackedBit | src/main.rs:256 | bit k of the packed data is bit k % 8 of byte k / 8, equal to stream bit k |
| ChunkFacts.PackedBits | src/main.rs:268-293 | bit i·w + t of the data is bit t of entry i |
| ChunkFacts.EncodedLayout | src/main.rs:266-293 | an encoded chunk has 512·w bytes, and entry i read back from them is the palette index of position i |
| ChunkFacts.EncodedBits | src/main.rs:268-293 | bit i·w + t of an encoded chunk's data is bit t of position i's palette index |
| ChunkFacts.CountIsOccurrences | src/main.rs:285 | the count of index k is the number of positions with index k |
| ChunkFacts.CountsSum | src/main.rs:285 | the counts add up to the number of values counted |
| ChunkFacts.StatisticsCount | src/main.rs:258-297 | the statistics list every palette entry in order; the count of each entry is the number of positions resolving to it; the counts total 4096 |
| ChunkFacts.AirPositions | src/main.rs:281-282 | the positions with the air index are exactly the empty positions |
| ChunkFacts.AirCountsEmptyCells | src/main.rs:281-285 | the air entry's count is the number of empty positions |
| ChunkPlanner.ChunkCount | src/main.rs:129-131 | the number of chunks along an axis is the least c with side ≤ 16·c |
| ChunkPlanner.ChunkOffset | src/main.rs:138-142 | the u8 offset is 16·(c mod 16): a multiple of 16 at most 240, and 16·c below 16 chunks |
| ChunkPlanner.OffsetTruncates | src/main.rs:139-141 | (16·c) mod 256 is 16·(c mod 16) |
| ChunkPlanner.PatternFileNameInjective | src/main.rs:159-161 | numbered file names of one prefix differ for different numbers |
| ChunkPlanner.PlaneSize | src/main.rs:136-137 | a slab of the grid has w·h chunks |
| ChunkPlanner.PlaneAt | src/main.rs:136-137 | chunk (x, y, z) is element y·h + z of slab x |
| ChunkPlanner.GridSize | src/main.rs:135-137 | the grid has l·w·h chunks |
| ChunkPlanner.GridAt | src/main.rs:135-137 | chunk (x, y, z) is visited at position (x·w + y)·h + z: x outermost, z innermost |
| ChunkPlanner.RunAppend | src/main.rs:135-166 | the loop over a + b is the loop over b from where the loop over a ends |
| ChunkPlanner.RunFaultSticks | src/main.rs:143-147 | after an abort the remaining chunks change nothing |
| ChunkPlanner.RunStopsEarly | src/main.rs:143-147 | if a prefix of the chunks aborts, the whole run ends there |
| ChunkPlanner.RunGrows | src/main.rs:157-163 | files are only appended, at most one per chunk |
| ChunkPlanner.EmitNames | src/main.rs:157-163 | one chunk's turn names the file it adds after its number |
| ChunkPlanner.RunNames | src/main.rs:157-163 | the j-th file written is named with the prefix and number j (or `<prefix>.cbsbp` for a single chunk) |
| ChunkPlanner.RunFault | src/main.rs:143-162 | the run aborts exactly when some chunk's encoding aborts; the abort is that of the first such chunk, and the files are those written before it |
| ChunkPlanner.RunProduces | src/main.rs:143-163 | without an abort, the files are the chunks that are not all air, in order, the j-th named with number j |
| ChunkPlanner.AllAirWritesNothing | src/main.rs:143-147 | a grid of all-air chunks writes no file |
| ChunkPlanner.PlanNamesDistinct | src/main.rs:157-163 | no two files of a run share a name; a single-chunk model writes at most `<prefix>.cbsbp` |
| ChunkPlanner.EdgeChunkAborts | src/main.rs:138-142 | with the 255³ lookup, every chunk at x = 15 reads beyond it and aborts |
| ChunkPlanner.WideModelAborts | src/main.rs:129-144 | a model more than 240 voxels long in x, with non-zero y and z sides, always aborts |
| ChunkPlanner.FaultEndsPlan | src/main.rs:143-147 | a chunk that aborts ends the whole chunk loop with the files written before it |
| ChunkPlanner.PlanStep | src/main.rs:143-163 | after a chunk that does not abort, the files are the loop's outcome up to that chunk |
| ChunkPlanner.EncodeAt | src/main.rs:138-144 | encoding a chunk of the grid gives its reference result |
| ChunkPlanner.PlanChunk | src/main.rs:138-163 | one turn of the loop: an all-air chunk is skipped, another is written under the next number, an abort ends the loop |
| ChunkPlanner.PlanRow | src/main.rs:137-164 | the z loop over one row either continues the run to the next row or ends it with the reference outcome of the whole grid |
| ChunkPlanner.PlanChunks | src/main.rs:127-166 | the nested loops write exactly the files, and meet exactly the abort, of `Run` over the grid in x-major order |
| ChunkPlanner.CreatedReady | src/main.rs:99-125 | the palette built for a model covers every slot of the lookup built for it, with indices that address the palette |
| ChunkPlanner.CreatedNames | src/main.rs:157-163 | one model's files are named after its prefix with numbers 0, 1, … in order, so they are pairwise distinct; a single-chunk model writes at most one file |
| ChunkPlanner.CreatePatterns | src/main.rs:93-167 | lookup, palette and chunk loop together give exactly `Created`: a lookup or palette abort with no file, or the chunk loop's outcome |
| Decimal.DecimalString | src/main.rs:84 | a number renders as a non-empty string of decimal digits |
| Decimal.DecimalRoundTrip | src/main.rs:160 | the rendered digits read back as the number, with a leading 0 only for 0 itself |
| Decimal.DecimalInjective | src/main.rs:160 | different numbers render differently |
| ModelSelection.SelectModels | src/main.rs:61-77 | the selection is exactly `Selected`: all models for a single-model file or `-a`; else the requested models in order; else the ambiguous case |
| ModelSelection.SelectedValid | src/main.rs:63-73 | a single-model file or `-a` exports every model, in file order; every exported index names a model; requested number n exports model n − 1, in the order requested |
| ModelSelection.SelectedFails | src/main.rs:65-73 | selection aborts exactly when numbers are requested, neither the one-model nor the `-a` case applies, and some number is 0 or beyond the model count |
| ModelSelection.ExportPrefixPlain | src/main.rs:81-85 | the prefix is the output name exactly when one model is exported; otherwise it is the output name, `_` and the model's 0-based position in the export order |
| ModelSelection.ModelFileNamesDiffer | src/main.rs:84-160 | files of two different exported models never share a name |
| ModelSelection.UpToFaultAt | src/main.rs:80-88 | the outcomes are the runs in order up to and including the first abort, and runs continue while none aborts |
| ModelSelection.ExportNamesDistinct | src/main.rs:79-88 | no two files written by the whole export share a name |
| ModelSelection.ExportAll | src/main.rs:79-88 | the export loop gives exactly the runs of `create_patterns` on the selected models with their prefixes, stopping after the first abort |
| ModelSelection.RunProgram | src/main.rs:61-88 | selection followed by the export loop gives exactly `ProgramRun`: a selection abort or an ambiguous choice exports nothing; otherwise the selected models are exported in order up to the first abort |
| ModelSelection.InvalidNumberWritesNothing | src/main.rs:65-73 | when the numbers decide the selection, one number that is 0 or beyond the model count aborts the program with `InvalidModelIndex` before any file is written |
| ModelSelection.AmbiguousWritesNothing | src/main.rs:74-76 | several models with neither `-a` nor numbers export nothing, without an abort |

## Left out

- Command-line parsing with clap (src/main.rs:15-53) is not modelled. The
  output name, `-a` and the `-m` numbers are parameters.
- Loading the voxel file (`dot_vox::load`) and reading the block palette
  file are I/O and are left out. A model's voxels, its size and the colour
  palette are parameters.
- `BlockPalette::from_json` (src/main.rs:174-191) is JSON and sRGB parsing,
  which is not modelled. `ColourMatch.ClosestBlock` takes the converted
  block colours and the difference as parameters.
- The colour conversion and the CIEDE2000 difference of `closest_block`
  are f32 arithmetic, which is not modelled. The difference is an arbitrary
  function to the reals, so NaN and `total_cmp` ordering are not modelled.
- `create_patterns` and `ExportAll` take colour matching as a function
  parameter `closest`. `SharedPalette.ClosestOf` is the instance the
  program uses, `closest_block` after an abstract colour conversion, and
  `ClosestBlockPalette` states what the palette is under it.
- `data_to_pattern` and the serialised types (src/main.rs:211-245,
  316-365) are left out: NBT, LZ4, base64, JSON and zlib. A written pattern
  holds the encoded chunk itself.
- `std::fs::write` is modelled as appending a file to the list of files
  written. A failing write (its `expect`) is not modelled.
- `HashSet` iteration order is unspecified in the source. It is a
  parameter `order`, an enumeration of the used-slot set.
- The `eprintln!` for a multi-model file without `-a` or `-m` becomes the
  `Ambiguous` selection. The message text is left out.
- Panic messages are left out. Each panic is a `Fault` value.
- Debug and release builds differ only in how `index - 1` on a requested
  number 0 panics; both abort. The model gives `InvalidModelIndex` for
  both.
- u8 additions in `model_to_data` are modelled with release-build
  wrap-around. For the offsets the chunk loop produces they never wrap.
- ChunkPlanner.ChunkCount: the f32 `ceil(size / 16)` is exact integer
  ceiling division. It agrees with the f32 version for the sizes a
  MagicaVoxel model can have (at most 256); for sizes above 2^24 the f32
  rounding is not modelled.
- BitPacking.CeilLog2: the f32 `ceil(log2(len))` is the exact integer
  version. They agree for the palette sizes that occur (1 to 257).
- The same `ModelData` box is the lookup for every chunk. In the encoder
  the lookup is a sequence value: the array that `BuildLookup` fills is
  passed as its contents. Aliasing is therefore not modelled.
- `u32` chunk counters cannot overflow here (at most 4096 per chunk), so
  they are plain naturals.
