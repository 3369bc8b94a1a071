/** Types shared by every part of the voxel-to-pattern converter. */
module Common {

  /** An unsigned 8-bit value (Rust `u8`). */
  type byte = x: int | 0 <= x < 256

  /** A signed 8-bit value (Rust `i8`), the element type of an NBT byte array. */
  type i8 = x: int | -128 <= x < 128

  datatype Option<T> = None | Some(value: T)

  /** The ways a conversion run aborts. Each one is a panic (an `unwrap`, an
      `expect` or an out-of-bounds index) in the program. */
  datatype Fault =
    | VoxelOutOfRange      // a voxel's dense index lies beyond the lookup array
    | MissingColour        // a used colour slot has no colour in the model's palette
    | EmptyBlockPalette    // colour matching against a block palette with no entries
    | EntryTooWide         // a chunk-palette index needs more than the 8 bits of a u8
    | LookupOutOfRange     // a chunk position's dense index lies beyond the lookup array
    | InvalidModelIndex    // a requested model number is 0 or beyond the model count

  datatype Result<T> = Ok(value: T) | Err(fault: Fault)
}
