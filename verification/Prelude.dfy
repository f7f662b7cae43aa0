// Shared datatypes and the integer widths the system relies on.

module Prelude {
  datatype Option<+T> = None | Some(value: T)

  datatype Result<+T, +E> = Ok(value: T) | Err(error: E)

  // Class, instance, subject, verb and label names are compared, never taken apart.
  type Name = string

  const I64_MAX: nat := 0x7FFF_FFFF_FFFF_FFFF
  const U64_MAX: nat := 0xFFFF_FFFF_FFFF_FFFF
  const U32_MAX: nat := 0xFFFF_FFFF

  type U64 = n: nat | n <= U64_MAX
  type U32 = n: nat | n <= U32_MAX
}
