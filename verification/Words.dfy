/** The machine words of the memory and file formats. */
module Words {
  const MAX_U64: nat := 0xFFFF_FFFF_FFFF_FFFF

  type U64 = n: nat | n <= MAX_U64
  type U32 = n: nat | n < 0x1_0000_0000
}
