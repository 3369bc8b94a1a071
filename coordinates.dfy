/** Index arithmetic: local chunk positions and the dense voxel lookup array. */
module Coordinates {
  import opened Common

  /** Edge length of a chunk (one block of the target game). */
  const BlockSide: nat := 16
  /** Number of positions in a chunk, 16 * 16 * 16. */
  const ChunkVolume: nat := 4096
  /** Side of the dense lookup cube. It is one less than the 256 values a u8
      coordinate can take. */
  const VoxelMaxSide: nat := 255
  /** Length of the dense lookup array, 255 * 255 * 255. */
  const LookupSize: nat := 16581375

  datatype Position = Position(x: byte, y: byte, z: byte)

  /** Splits a linear chunk index into a local (x, y, z), x most significant,
      dividing by BlockSide * BlockSide = 256 and BlockSide = 16. The three
      results are narrowed to u8 as the program does. */
  function PositionFromIndex(index: nat): (p: Position)
    ensures index < ChunkVolume ==>
      p.x < BlockSide && p.y < BlockSide && p.z < BlockSide &&
      p.x * 256 + p.y * 16 + p.z == index
  {
    var x := index / 256;
    var y := (index - x * 256) / 16;
    var z := index - x * 256 - y * 16;
    Position(x % 256, y, z)
  }

  /** Local position (x, y, z) inside a chunk is recovered from its linear index. */
  lemma PositionFromIndexInverts(x: nat, y: nat, z: nat)
    requires x < BlockSide && y < BlockSide && z < BlockSide
    ensures x * 256 + y * 16 + z < ChunkVolume
    ensures PositionFromIndex(x * 256 + y * 16 + z) == Position(x, y, z)
  {
    var i := x * 256 + y * 16 + z;
    assert i / 256 == x;
    assert (i - x * 256) / 16 == y;
  }

  /** Flattens a model coordinate into the dense lookup array of side 255
      (x * 255 * 255 + y * 255 + z). */
  function IndexFromPosition(x: byte, y: byte, z: byte): nat
  {
    x * 65025 + y * 255 + z
  }

  /** When all three coordinates are below 255 the index is in range and the
      coordinates can be read back from it. */
  lemma IndexDecodes(x: byte, y: byte, z: byte)
    requires x < VoxelMaxSide && y < VoxelMaxSide && z < VoxelMaxSide
    ensures var r := IndexFromPosition(x, y, z);
      r < LookupSize &&
      r / (VoxelMaxSide * VoxelMaxSide) == x &&
      (r / VoxelMaxSide) % VoxelMaxSide == y &&
      r % VoxelMaxSide == z
  {
    var r := IndexFromPosition(x, y, z);
    assert r == (x * 255 + y) * 255 + z;
    assert r / 255 == x * 255 + y;
  }

  /** Below the side length, distinct coordinates get distinct indices. */
  lemma IndexInjective(x: byte, y: byte, z: byte, x': byte, y': byte, z': byte)
    requires x < VoxelMaxSide && y < VoxelMaxSide && z < VoxelMaxSide
    requires x' < VoxelMaxSide && y' < VoxelMaxSide && z' < VoxelMaxSide
    requires IndexFromPosition(x, y, z) == IndexFromPosition(x', y', z')
    ensures x == x' && y == y' && z == z'
  {
  }

  /** Exactly which u8 coordinates overrun the lookup array: every x of 255,
      and the two corners where a y or z of 255 carries into x = 255. */
  lemma IndexInRangeIff(x: byte, y: byte, z: byte)
    ensures IndexFromPosition(x, y, z) < LookupSize <==>
      !(x == 255 || (x == 254 && y == 255) || (x == 254 && y == 254 && z == 255))
  {
  }

  /** A y of 255 aliases row 0 of the next x plane. */
  lemma IndexAliasesOnY(x: byte, z: byte)
    requires x < 255
    ensures IndexFromPosition(x, 255, z) == IndexFromPosition(x + 1, 0, z)
  {
  }

  /** A z of 255 aliases column 0 of the next y row. */
  lemma IndexAliasesOnZ(x: byte, y: byte)
    requires y < 255
    ensures IndexFromPosition(x, y, 255) == IndexFromPosition(x, y + 1, 0)
  {
  }
}
