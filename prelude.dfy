/** Rust's fixed-width integers and the two sum types every module of the wrapper uses. */
module Prelude {

  newtype i32 = x: int | -0x8000_0000 <= x < 0x8000_0000
  newtype u16 = x: int | 0 <= x < 0x1_0000
  newtype u32 = x: int | 0 <= x < 0x1_0000_0000
  newtype u64 = x: int | 0 <= x < 0x1_0000_0000_0000_0000

  datatype Option<+T> = None | Some(value: T)

  /** `std::result::Result`; `Ok(())` is `Ok(())` here too. */
  datatype Result<+T, +E> = Ok(value: T) | Err(error: E)
}
