/** Vocabulary shared by the client library, the daemon and the driver. */
module Protocol {
  /** The two virtual devices. */
  datatype Device = Keyboard | Pointing

  /** `virtual_hid_keyboard_parameters`: three 64-bit identifiers. */
  datatype Parameters = Parameters(vendorId: uint64, productId: uint64, countryCode: uint64)

  newtype uint8 = x: int | 0 <= x < 0x100
  newtype uint16 = x: int | 0 <= x < 0x1_0000
  newtype uint32 = x: int | 0 <= x < 0x1_0000_0000
  newtype uint64 = x: int | 0 <= x < 0x1_0000_0000_0000_0000

  const DEFAULT_PARAMETERS := Parameters(0x16c0, 0x27db, 0)

  /** The version built into daemon and driver alike. */
  const EMBEDDED_DRIVER_VERSION: uint64 := 10800

  const EMBEDDED_CLIENT_PROTOCOL_VERSION: uint16 := 7

  /** A report for one of the devices, as the driver gets it. */
  datatype Report = Report(device: Device, bytes: seq<uint8>)

  /** What the driver is asked to hand to a device: a report, or the empty reports of a reset. */
  datatype Output = Posting(report: Report) | Clearing(device: Device)

  /** A call that the daemon makes into the driver, other than the version query. */
  datatype DriverCall =
    | InitializeKeyboard(parameters: Parameters)
    | InitializePointing
    | QueryReady(device: Device)
    | ResetDevice(device: Device)
    | PostReport(device: Device, report: seq<uint8>)

  /** `kern_return_t`, as far as the driver tells results apart; other codes come from calls into the system. */
  datatype Return = Success | Error | BadArgument | Unsupported | Foreign(code: nat)
}
