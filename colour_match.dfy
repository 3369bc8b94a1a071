/** Selection of the closest block in `BlockPalette::closest_block`. The colour
    conversions and the CIEDE2000 difference are floating point; here the
    colour type is a parameter and the difference an arbitrary function to
    the reals. */
module ColourMatch {
  import opened Common

  /** A block of the palette file with its colour, already converted. */
  datatype BlockColour<C> = BlockColour(colour: C, block: string)

  /** The index of the first smallest value. The program sorts the
      differences with a stable sort and takes the head, which is exactly
      this entry. */
  function FirstMinimum(ds: seq<real>): (k: nat)
    requires |ds| > 0
    ensures k < |ds|
    ensures forall j :: 0 <= j < |ds| ==> ds[k] <= ds[j]
    ensures forall j :: 0 <= j < k ==> ds[j] > ds[k]
  {
    if |ds| == 1 then 0
    else
      var k' := FirstMinimum(ds[..|ds| - 1]);
      if ds[|ds| - 1] < ds[k'] then |ds| - 1 else k'
  }

  /** The block whose colour differs least from the target; taking the head
      of an empty list aborts. */
  function ClosestBlock<C>(palette: seq<BlockColour<C>>, target: C, difference: (C, C) -> real): (r: Result<string>)
    ensures r.Err? <==> |palette| == 0
    ensures r.Err? ==> r.fault == EmptyBlockPalette
    ensures r.Ok? ==> exists k :: (0 <= k < |palette| && r.value == palette[k].block &&
      (forall j :: 0 <= j < |palette| ==>
         difference(palette[k].colour, target) <= difference(palette[j].colour, target)) &&
      (forall j :: 0 <= j < k ==>
         difference(palette[j].colour, target) > difference(palette[k].colour, target)))
  {
    if |palette| == 0 then Err(EmptyBlockPalette)
    else
      var ds := seq(|palette|, j requires 0 <= j < |palette| => difference(palette[j].colour, target));
      var k := FirstMinimum(ds);
      assert forall j :: 0 <= j < |palette| ==> ds[j] == difference(palette[j].colour, target);
      Ok(palette[k].block)
  }
}
