/** The one Windows virtual-key code the key translation emits. */
module WinKeys {

  /** `VK_A`: the Windows virtual-key code of the A key (the upper-case ASCII letter). */
  const VkA: int := 0x41
}
