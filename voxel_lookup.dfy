/** The dense O(1) voxel lookup built at the start of `create_patterns`:
    one optional colour slot per cell of a 255-sided cube. */
module VoxelLookup {
  import opened Common
  import opened Coordinates

  /** One voxel of a loaded model: a u8 position and a colour-palette slot. */
  datatype Voxel = Voxel(x: byte, y: byte, z: byte, slot: byte)

  function VoxelIndex(v: Voxel): nat
  {
    IndexFromPosition(v.x, v.y, v.z)
  }

  /** Every colour slot some voxel of the model uses. */
  function UsedSlots(voxels: seq<Voxel>): set<byte>
  {
    set v | v in voxels :: v.slot
  }

  /** The slot that cell k holds after all voxels are written in order: that
      of the last voxel whose index is k, or nothing. */
  ghost function LastSlotAt(voxels: seq<Voxel>, k: nat): Option<byte>
  {
    if voxels == [] then None
    else if VoxelIndex(voxels[|voxels| - 1]) == k then Some(voxels[|voxels| - 1].slot)
    else LastSlotAt(voxels[..|voxels| - 1], k)
  }

  /** The whole lookup array the voxels produce. */
  ghost function LookupOf(voxels: seq<Voxel>): (cells: seq<Option<byte>>)
    ensures |cells| == LookupSize
  {
    seq(LookupSize, k requires 0 <= k < LookupSize => LastSlotAt(voxels, k))
  }

  /** Builds the lookup array in place and collects the used slots. The
      program indexes its vector with each voxel's dense index and so aborts
      at the first voxel whose index is beyond the array. */
  method BuildLookup(voxels: seq<Voxel>) returns (r: Result<array<Option<byte>>>, used: set<byte>)
    ensures r.Ok? <==> forall j :: 0 <= j < |voxels| ==> VoxelIndex(voxels[j]) < LookupSize
    ensures r.Err? ==> r.fault == VoxelOutOfRange
    ensures r.Ok? ==> fresh(r.value) && r.value[..] == LookupOf(voxels) && used == UsedSlots(voxels)
  {
    var cells := new Option<byte>[LookupSize](_ => None);
    used := {};
    var j := 0;
    while j < |voxels|
      invariant 0 <= j <= |voxels|
      invariant forall t :: 0 <= t < j ==> VoxelIndex(voxels[t]) < LookupSize
      invariant forall k :: 0 <= k < cells.Length ==> cells[k] == LastSlotAt(voxels[..j], k)
      invariant used == UsedSlots(voxels[..j])
    {
      var v := voxels[j];
      var index := VoxelIndex(v);
      if index >= cells.Length {
        return Err(VoxelOutOfRange), used;
      }
      assert voxels[..j + 1][..j] == voxels[..j];
      cells[index] := Some(v.slot);
      used := used + {v.slot};
      j := j + 1;
    }
    assert voxels[..j] == voxels;
    r := Ok(cells);
  }

  /** A cell holds a slot only if some voxel with that slot was written there. */
  lemma {:induction false} LastSlotIsUsed(voxels: seq<Voxel>, k: nat)
    requires LastSlotAt(voxels, k).Some?
    ensures LastSlotAt(voxels, k).value in UsedSlots(voxels)
    ensures exists j :: 0 <= j < |voxels| && VoxelIndex(voxels[j]) == k
  {
    var n := |voxels|;
    if VoxelIndex(voxels[n - 1]) != k {
      LastSlotIsUsed(voxels[..n - 1], k);
      assert UsedSlots(voxels[..n - 1]) <= UsedSlots(voxels);
      var j :| 0 <= j < n - 1 && VoxelIndex(voxels[..n - 1][j]) == k;
      assert voxels[j] == voxels[..n - 1][j];
    }
  }

  /** For voxels inside the 255-cube, the cell at a voxel's coordinates holds
      its slot when no later voxel has the same coordinates. */
  lemma {:induction false} LookupFindsVoxel(voxels: seq<Voxel>, j: nat)
    requires j < |voxels|
    requires forall t :: 0 <= t < |voxels| ==>
      voxels[t].x < VoxelMaxSide && voxels[t].y < VoxelMaxSide && voxels[t].z < VoxelMaxSide
    requires forall t :: j < t < |voxels| ==>
      (voxels[t].x, voxels[t].y, voxels[t].z) != (voxels[j].x, voxels[j].y, voxels[j].z)
    ensures VoxelIndex(voxels[j]) < LookupSize
    ensures LookupOf(voxels)[VoxelIndex(voxels[j])] == Some(voxels[j].slot)
  {
    var n := |voxels|;
    var v := voxels[j];
    if j < n - 1 {
      var last := voxels[n - 1];
      if VoxelIndex(last) == VoxelIndex(v) {
        IndexInjective(last.x, last.y, last.z, v.x, v.y, v.z);
        assert false;
      }
      var front := voxels[..n - 1];
      assert front[j] == v;
      LookupFindsVoxel(front, j);
    }
  }

  /** A cell no voxel maps to stays empty. */
  lemma {:induction false} LookupEmptyCell(voxels: seq<Voxel>, k: nat)
    requires k < LookupSize
    requires forall t :: 0 <= t < |voxels| ==> VoxelIndex(voxels[t]) != k
    ensures LookupOf(voxels)[k] == None
  {
    if voxels != [] {
      var front := voxels[..|voxels| - 1];
      forall t | 0 <= t < |front| ensures VoxelIndex(front[t]) != k {
        assert front[t] == voxels[t];
      }
      LookupEmptyCell(front, k);
    }
  }

  /** A cell holds the slot of the voxel written there last. */
  lemma {:induction false} LastSlotOf(voxels: seq<Voxel>, j: nat)
    requires j < |voxels|
    requires forall t :: j < t < |voxels| ==> VoxelIndex(voxels[t]) != VoxelIndex(voxels[j])
    ensures LastSlotAt(voxels, VoxelIndex(voxels[j])) == Some(voxels[j].slot)
  {
    var n := |voxels|;
    if j < n - 1 {
      var front := voxels[..n - 1];
      assert front[j] == voxels[j];
      forall t | j < t < |front| ensures VoxelIndex(front[t]) != VoxelIndex(front[j]) {
        assert front[t] == voxels[t];
      }
      LastSlotOf(front, j);
    }
  }

  /** With side 255, a voxel at y = 255 lands in the cell of (x + 1, 0, z)
      unless a later voxel overwrites that cell: the lookup reports it at a
      coordinate it does not occupy. */
  lemma VoxelOnSideAliases(voxels: seq<Voxel>, j: nat)
    requires j < |voxels| && voxels[j].y == 255 && voxels[j].x < 254
    requires forall t :: j < t < |voxels| ==> VoxelIndex(voxels[t]) != VoxelIndex(voxels[j])
    ensures IndexFromPosition(voxels[j].x + 1, 0, voxels[j].z) < LookupSize
    ensures LookupOf(voxels)[IndexFromPosition(voxels[j].x + 1, 0, voxels[j].z)] == Some(voxels[j].slot)
  {
    var v := voxels[j];
    IndexAliasesOnY(v.x, v.z);
    IndexInRangeIff(v.x + 1, 0, v.z);
    LastSlotOf(voxels, j);
  }
}
