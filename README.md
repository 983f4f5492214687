# NABU emulator glue platform, modelled in Dafny

This project models the platform glue of a NABU personal computer emulator
(the "Marduk" emulator): the part that sits between the external Z80,
TMS9918 and AY-3-8910 cores and the host.

- **Memory map** (`Machine`): 64K of RAM with a 4K or 8K boot ROM shadowing
  the bottom of the address space while bit 0 of the control register is
  clear. Writes always land in RAM.
- **I/O ports** (`Machine`): the full-byte port decode of `port_read` and
  `port_write`. Port 0x00 loads the control register. Ports 0x40/0x41 (PSG)
  read as 0 and ignore writes. 0x80 is the modem, 0xA0/0xA1 the video chip.
  0x90/0x91 are the keyboard data and status ports. Every other port reads as 0.
- **Keyboard latch** (`Keymap`, `Machine`): one byte, `next_key`, where 0
  means empty. Host key events overwrite it: break codes on key-up, and on
  key-down the Shift/Ctrl/Caps translation of an ASCII key. Reading port 0x90
  empties it. The power-up byte 0x95 is latched at CPU initialisation.
- **Watchdog and scanline loop** (`Timing`, `Machine`): at each scanline
  boundary (every 228 T-states) the host events are handled and the watchdog
  counts idle scanlines. After 58000 idle scanlines it latches the keep-alive
  byte 0x94. The scanline counter runs 0..261 and a frame is presented when it
  wraps.
- **Floppy controller card** (`Disk`): track, sector, data and status
  registers plus a card-presence byte, all behind a decode of the port's low
  nibble. Also a two-drive table of image files, each classified by size as
  5.25" SS (204800 bytes), 5.25" DS (409600) or 3.5" DS (819200).

Imperative parts of the source are classes. `Platform` holds RAM and ROM as
arrays and the control register, latch, watchdog counter, scanline, cycle
budget and exit flag as fields. `FloppyController` holds the registers as
fields and the drive table as two arrays. Each method is specified against
pure functions (`Fetch`, `PortIn`, `KeyAfterEvents`, `WatchdogTick`,
`NextScanline`, `Classify`, ...), and lemmas state the properties of those
functions.

What the code does, stated plainly:
- The keyboard is the single latch `next_key`. A new key overwrites a pending one.
- Nothing in `main.c` raises an interrupt.
- `disksys_do` only logs its command byte. The controller has no other behaviour behind the command register.
- The status register `stat` is never written, so it always reads 0. `Valid()` records this.

Other observations that the model makes explicit:
- The key-down "make code" switch never decides the latch. Arrow, Home, End,
  Insert, Pause and Page Down have host symbols of 128 or more, so their
  key-downs never enter that branch. Delete has symbol 0x7F, so it does
  enter the branch, but its make code 0xE6 is overwritten by the translated
  key. A key-down of Delete therefore latches 0x7F, and its key-up latches
  the break code 0xF6 (`DeleteKey`).
- `disksys_deinit` closes the open images but leaves the file pointers
  non-null. The `Closed` handle keeps that visible: a later `Insert` on that
  drive is refused as occupied, and `Eject` empties it.
- Pressing F3 resets the CPU during `every_scanline`, so `next` becomes 228
  and then the boundary adds 228 more (`Boundary`, `ScanlineBoundary`).
- The main loop is specified as a fold (`RunFold`) of one turn (`TickStep`).
  A turn takes a boundary exactly when the cycle counter has passed `next`,
  then executes one instruction.

## Model

| member | source | states |
|---|---|---|
| `Keymap.FlipCase` | main.c:376-377 | XOR with 0x20 turns a lower-case ASCII letter into its upper-case form and back |
| `Keymap.Translate` | main.c:351-394 | the translated key is a 7-bit code or 0xFF; it is 0xFF exactly for Ctrl-2; an unmodified key passes through unchanged; Ctrl+letter gives control code 1..26; otherwise a letter is upper case exactly when Caps Lock and Shift differ |
| `Keymap.BreakCode` | main.c:261-295 | exactly the ten keys of the key-up switch (Delete being symbol 0x7F) send a break code, and it lies in 0xF0..0xFA |
| `Keymap.DeleteKey` | main.c:285-394 | a key-down of Delete latches 0x7F (the make code is overwritten) and its key-up latches 0xF6 |
| `Keymap.NonKeyEventKeepsKey` | main.c:254-419 | an event that writes no key leaves the keyboard latch unchanged |
| `Keymap.QuietEventsKeepKey` | main.c:254-419 | a batch of events with no key-writing event leaves the latch unchanged |
| `Keymap.LastKeyEventWins` | main.c:254-419 | after a batch of events, the latch holds what the last key-writing event wrote, whatever it held before |
| `Keymap.CapsOnlyAffectsLetters` | main.c:374-379 | Caps Lock changes the translation of letters only |
| `Keymap.ShiftedDigits` | main.c:380-392 | Shift (without Ctrl) on a digit gives the symbol above it, `)!@#$%^&*(` |
| `Keymap.CtrlBeforeShift` | main.c:353-373 | Ctrl rewrites are applied before Shift ones: Ctrl(-Shift)-minus is 0x1F and Ctrl-[ is ESC |
| `Timing.WatchdogTick` | main.c:765-775 | the idle count stays below 58000; a full latch is kept and the count reset; the latch only changes from empty to 0x94 |
| `Timing.WatchdogCounts` | main.c:765-775 | while below the limit, each boundary with an empty latch adds one to the idle count |
| `Timing.WatchdogFires` | main.c:765-775 | from an empty latch the keep-alive byte 0x94 appears exactly at boundary 58000 - idle and not before, and the count restarts at 0 |
| `Timing.PendingKeyHeld` | main.c:765-775 | an unread key stays latched across any number of boundaries, with the idle count held at 0 |
| `Timing.NextScanline` | main.c:776-784 | the scanline stays in 0..261 and advances by one modulo 262 |
| `Timing.ScanlineAfter` | main.c:776-784 | after any number of boundaries the scanline is still in 0..261 |
| `Timing.ScanlineCycle` | main.c:776-784 | after n boundaries the scanline is the start plus n modulo 262, and (start + n) div 262 frames have been presented |
| `Timing.OneFramePer262` | main.c:776-784 | every 262 boundaries the scanline returns to its start and exactly one frame is presented |
| `Machine.ReadAfterWrite` | main.c:129-139 | after a write, a read of that address gives the written byte unless the ROM shadows it; every other address reads as before |
| `Machine.ShadowedWriteVisibleAfterRomOff` | main.c:129-139 | with the ROM disabled, a byte written anywhere, also under the ROM, reads back |
| `Machine.CtrlIrrelevantAboveRom` | main.c:129-134 | at or above the ROM size a read is RAM whatever the control register holds |
| `Machine.KeyStatusReportsLatch` | main.c:197-198 | port 0x91 reads 0xFF exactly when a key is latched and 0x00 exactly when none is |
| `Machine.KeyReadConsumes` | main.c:193-198 | port 0x90 returns the latched byte, with 0xFF as 0, and empties the latch, so a second read gives 0 and the status port then reads 0 |
| `Machine.QuietPortsReadZero` | main.c:183-208 | the PSG ports and every unmapped port read as 0 and leave the latch alone |
| `Machine.CtrlOnlyViaPortZero` | main.c:211-238 | only an OUT to port 0 changes the control register, and that byte goes to no device |
| `Machine.Platform.constructor` | main.c:721-756 | start-up: ROM image loaded with its size 4K or 8K, RAM zero, control register 0x3A, power-up byte 0x95 latched, first boundary at 228, scanline and watchdog 0 |
| `Machine.Platform.InitCpu` | main.c:547-556 | the CPU reset clears the cycle counter, sets the first boundary to 228 and latches 0x95 |
| `Machine.Platform.MemRead` | main.c:129-134 | returns ROM[addr] when the ROM is enabled and addr < romsize, RAM[addr] otherwise; changes nothing |
| `Machine.Platform.MemWrite` | main.c:136-139 | RAM[addr] becomes the byte, every other RAM cell and all of ROM are unchanged, whatever the control register holds |
| `Machine.Platform.PortRead` | main.c:179-209 | the value read is the port decode of the latch, modem and video inputs; only port 0x90 changes the latch (to empty) |
| `Machine.Platform.PortWrite` | main.c:211-238 | port 0 loads the control register; the modem (if connected) and video ports forward the byte; all other ports change nothing |
| `Machine.Platform.HandleEvent` | main.c:254-419 | one host event: the latch as `KeyAfterEvent` gives it, the exit flag raised by quit/F10/Alt-F4, and on F3 the CPU reset |
| `Machine.Platform.EveryScanline` | main.c:243-420 | all pending host events are handled in order: the latch is the fold of the events, the exit flag is raised if any event asks, and a reset happens if any F3 is pressed |
| `Machine.Platform.ScanlineBoundary` | main.c:760-786 | one boundary: the events, then the watchdog tick, then the scanline advanced with a frame on wrap, then the boundary moved 228 T-states on |
| `Machine.Boundary` | main.c:762-785 | one boundary advances the scanline position by exactly one, keeps the idle count below 58000, and moves `next` 228 T-states on (from 228 after an F3 reset, which also clears the cycle counter) |
| `Machine.TickStep` | main.c:760-787 | one turn of the loop takes a boundary exactly when `cyc > next` (otherwise only the cycle counter moves, by the instruction's cycles) and raises the exit flag only through a boundary's events |
| `Machine.RunFold` | main.c:758-788 | the scanline stays in 0..261 over any sequence of turns |
| `Machine.BudgetFollowsBoundaries` | main.c:760-787 | without an F3 reset, `next` has moved 228 T-states per boundary taken and the cycle counter has grown by exactly the cycles executed |
| `Machine.Platform.Turn` | main.c:760-787 | one turn of the loop body changes the loop state exactly as `TickStep` does and reports whether a boundary was taken |
| `Machine.Platform.Run` | main.c:758-788 | the loop's final state is the fold of `TickStep` over the turns it executed; it executed a turn only while the exit flag was clear and stopped early only with the flag set; frames * 262 + scanline advanced by exactly the number of boundaries |
| `Machine.ColdStartKeyboard` | main.c:193-198 | after cold start the first read of port 0x90 gives 0x95, then the status port gives 0 and a second read gives 0 |
| `Disk.Classify` | disk.c:145-161 | the three image sizes map one-to-one to 5.25" SS, 5.25" DS and 3.5" DS; every other size is no disk |
| `Disk.InsertRefusal` | disk.c:126-161 | an insert is accepted exactly when the name is non-null and non-empty, the drive is 0 or 1, its slot is empty, the image opened and its size is recognised; a null or empty name is refused first |
| `Disk.FloppyController.constructor` | disk.c:39-42 | at program start the registers are 0 and both drives are empty with no disk type |
| `Disk.FloppyController.Read` | disk.c:63-80 | the low nibble selects status (always 0), track, sector, data or the presence byte 0x10; any other nibble reads 255; nothing changes |
| `Disk.FloppyController.Write` | disk.c:82-106 | nibbles 1, 2, 3 load track, sector, data and only that register; every other nibble changes no register and no drive |
| `Disk.FloppyController.Eject` | disk.c:108-120 | a drive outside 0..1 or an empty drive is left alone; an occupied drive is emptied and its type reset |
| `Disk.FloppyController.Insert` | disk.c:122-165 | returns 0 exactly when no refusal applies, and then the drive holds the image with the type its size gives; on -1 the drive table is unchanged |
| `Disk.FloppyController.Init` | disk.c:167-171 | both drives empty with no disk type |
| `Disk.FloppyController.Deinit` | disk.c:173-178 | both types reset; each open image is closed but its slot still reads as occupied |
| `Disk.RegisterRoundTrip` | disk.c:63-106 | writing register nibble 1, 2 or 3 and then reading a port with the same low nibble gives the byte written |
| `Disk.MountScenario` | disk.c:122-165 | a fresh controller accepts a 204800-byte image in drive 0 as 5.25" SS and then refuses a second image in the same drive |

## Left out

- Video output: `render_scanline`, the double scan, the NTSC noise, the LED drawing and `next_frame`. The loop counts presented frames in a ghost field instead.
- Wall-clock pacing: the `clock_gettime`/`nanosleep` throttle in `every_scanline`, and the reset of its deadline on F3.
- ROM file loading (`init_rom`): the constructor receives the loaded image. Its size check becomes the precondition, because `main` exits when the check fails. The short-read warning is not modelled.
- The Z80 core. `z80_step` is one `Tick` that adds its cycle count to the counter. The memory and port accesses an instruction makes are modelled as the separate `MemRead`/`MemWrite`/`PortRead`/`PortWrite` calls; `Run` does not interleave them, so a port 0x90 read in mid-run is not part of `RunFold`. `z80_init` is taken to clear the cycle counter, because its body is not part of this model. Saving the CPU's user pointer in `reinit_cpu` is not modelled.
- The modem, video chip and sound chip. A byte one of them would return is the `ext` parameter of `PortRead`, and a byte written to one of them is the `Outbound` result of `PortWrite`. `modem_init` only sets `gotModem`, which the constructor takes as given.
- Host keyboard input: SDL events other than key-up, key-down and quit, and key symbols other than the ones the source switches on. Modifier state is four booleans rather than SDL's bit mask. The key-down make-code switch for arrow keys is left out because it never takes effect.
- Diagnostic output: `printf`, `diag_printf`, `perror` and the `PORT_DEBUG` warnings. The command byte passed to `disksys_do` is only logged, so it has no model beyond "changes nothing".
- 64-bit wrap-around of the `unsigned long` cycle counter and cycle budget: `cyc` and `next` are unbounded naturals.
- Real file handles: an image is what opening it yields (nothing, or its size). The second `fclose` that `Eject` or `Deinit` performs on a handle already closed by `Deinit` is only a state change here.
- The return values of `disksys_init` and `disksys_deinit`: they are declared `int` but return nothing.
