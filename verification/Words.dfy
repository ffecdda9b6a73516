/** The 32-bit machine word. */
module Words {
  const UINT32_RANGE: nat := 0x1_0000_0000
  const UINT32_MAX: nat := 0xFFFF_FFFF

  type uint32 = n: nat | n < 0x1_0000_0000
}
