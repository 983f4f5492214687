/** Machine-level value types shared by the bus, the keyboard and the floppy controller. */
module Types {

  /** An 8-bit value: a memory cell, a port number or a port datum (C `uint8_t`). */
  type Byte = x: int | 0 <= x < 0x100

  /** A 16-bit Z80 memory address (C `uint16_t`). */
  type Addr = x: int | 0 <= x < 0x1_0000

  datatype Option<+T> = None | Some(value: T)
}
