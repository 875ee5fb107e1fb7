/** The C integer widths, HID constants and report records shared by every part of the model
    (esp_hid/include/esp_hid_common.h). */
module HidTypes {

  type u8 = x: int | 0 <= x < 0x100
  type u16 = x: int | 0 <= x < 0x1_0000
  type u32 = x: int | 0 <= x < 0x1_0000_0000

  datatype Option<+T> = None | Some(value: T)

  // Short-item tags: the prefix byte with its two size bits cleared.
  const RM_USAGE_PAGE: u8 := 0x04
  const RM_USAGE: u8 := 0x08
  const RM_REPORT_SIZE: u8 := 0x74
  const RM_INPUT: u8 := 0x80
  const RM_REPORT_ID: u8 := 0x84
  const RM_OUTPUT: u8 := 0x90
  const RM_REPORT_COUNT: u8 := 0x94
  const RM_COLLECTION: u8 := 0xa0
  const RM_FEATURE: u8 := 0xb0
  const RM_END_COLLECTION: u8 := 0xc0

  const PAGE_GENERIC_DESKTOP: u16 := 0x01
  const PAGE_CONSUMER_DEVICE: u16 := 0x0C
  const USAGE_MOUSE: u16 := 0x02
  const USAGE_JOYSTICK: u16 := 0x04
  const USAGE_GAMEPAD: u16 := 0x05
  const USAGE_KEYBOARD: u16 := 0x06
  const USAGE_CONSUMER_CONTROL: u16 := 0x01

  const TYPE_INPUT: u8 := 1
  const TYPE_OUTPUT: u8 := 2
  const TYPE_FEATURE: u8 := 3

  const MODE_BOOT: u8 := 0
  const MODE_REPORT: u8 := 1

  const APPEARANCE_GENERIC: u16 := 0x03C0
  const APPEARANCE_KEYBOARD: u16 := 0x03C1
  const APPEARANCE_MOUSE: u16 := 0x03C2
  const APPEARANCE_JOYSTICK: u16 := 0x03C3
  const APPEARANCE_GAMEPAD: u16 := 0x03C4

  /** The usage classes; the C code gives each a distinct bit of a mask, Generic no bit at all. */
  datatype Usage = Generic | Keyboard | Mouse | Joystick | Gamepad | Tablet | ConsumerControl | Vendor

  datatype ReportItem = ReportItem(
    mapIndex: u8, reportId: u8, reportType: u8, protocolMode: u8, usage: Usage, valueLen: u16)

  datatype ReportMap = ReportMap(usage: Usage, appearance: u16, reports: seq<ReportItem>)

  /** What a call of the parser gives: a map, NULL, or a dereference of a map that was never allocated. */
  datatype Outcome = Parsed(map_: ReportMap) | Rejected | NullMap
}
