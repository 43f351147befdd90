/** Value types shared by the configuration object, the card search and the
    SCA engine: card families, PCI identities and PCI addresses. */
module ReadoutTypes {

  /** CardType::type: the card family a descriptor belongs to. */
  datatype CardType = Unknown | Crorc | Cru

  /** A (device id, vendor id) identity pair, as four hexadecimal digits each. */
  datatype PciId = PciId(deviceId: string, vendorId: string)

  /** A PCI bus/device/function triple. */
  datatype PciAddress = PciAddress(bus: nat, device: nat, func: nat)

  /** Largest value of each address field: 8 bits for the bus, 5 for the
      device and 3 for the function, as in the PCI Local Bus Specification. */
  const MAX_BUS: nat := 0xff
  const MAX_DEVICE: nat := 0x1f
  const MAX_FUNCTION: nat := 0x7

  predicate ValidPciAddress(a: PciAddress)
  {
    a.bus <= MAX_BUS && a.device <= MAX_DEVICE && a.func <= MAX_FUNCTION
  }

  /** C++ `int` / `int32_t`. */
  type Int32 = x: int | -0x8000_0000 <= x < 0x8000_0000

  /** C++ `uint32_t`. */
  type Uint32 = x: int | 0 <= x < 0x1_0000_0000

  /** C++ `size_t` on a 64-bit host. */
  type Size = x: int | 0 <= x < 0x1_0000_0000_0000_0000
}
