/** The value types of the termbox terminal library that the input router and
    the map consume. The library itself (driver start-up, raw event polling,
    cell drawing) is foreign I/O and is not part of this model; only the shapes
    of its events and cells are. */
module Termbox {
  import opened Basics

  /** termbox.Key: a symbolic key code, an unsigned 16-bit word. */
  newtype Key = k: int | 0 <= k < 0x1_0000

  /** termbox.Modifier: an unsigned 8-bit modifier set, opaque here. */
  newtype Modifier = m: int | 0 <= m < 0x100

  /** termbox.Attribute: an unsigned 16-bit colour/attribute word, opaque here. */
  newtype Attribute = a: int | 0 <= a < 0x1_0000

  /** termbox's colour constants are numbered from zero in this order:
      Default, Black, Red, Green, Yellow, Blue, Magenta, Cyan, White. */
  const ColorDefault: Attribute := 0
  const ColorWhite: Attribute := 8

  /** The rune 0: a key event carrying it names its key by `Key` instead. */
  const NoRune: char := '\0'

  /** termbox.Cell: one screen cell. */
  datatype Cell = Cell(ch: char, fg: Attribute, bg: Attribute)

  /** The event types for which the input router has no case. */
  datatype OtherKind = Mouse | Interrupt | Raw | NoEvent

  /** The payload of an error event: Go's `error`, kept only as a tag. */
  type ErrorTag = string

  /** termbox.Event, as the tagged union its `Type` field selects. */
  datatype Event =
    | KeyEvent(mod: Modifier, key: Key, ch: char)
    | ResizeEvent(width: Int64, height: Int64)
    | ErrorEvent(err: ErrorTag)
    | OtherEvent(kind: OtherKind)

  /** One call of termbox.SetCell(x, y, ch, fg, bg). */
  datatype CellWrite = CellWrite(x: Int64, y: Int64, cell: Cell)
}
