/**
 * The NABU glue platform of main.c: the memory map with its shadowing ROM,
 * the I/O port decoder, the single-byte keyboard latch with its watchdog,
 * and the scanline loop that paces the Z80.
 *
 * The Z80, the TMS9918 video chip, the AY-3-8910 sound chip and the modem
 * are outside the model: a value those devices would return is a parameter,
 * and a value written to them is returned as an `Outbound` message.
 */
module Machine {
  import opened Types
  import opened Keymap
  import opened Timing

  const RamSize: nat := 0x1_0000
  const RomCapacity: nat := 0x2000

  /** Port numbers the decoder knows. */
  const CtrlPort: Byte := 0x00
  const PsgDataPort: Byte := 0x40
  const PsgLatchPort: Byte := 0x41
  const ModemPort: Byte := 0x80
  const KeyDataPort: Byte := 0x90
  const KeyStatusPort: Byte := 0x91
  const VdpDataPort: Byte := 0xA0
  const VdpCtrlPort: Byte := 0xA1

  /** The control register value set before the first instruction (LEDs on, TV mode off). */
  const InitialCtrl: Byte := 0x3A

  // ---------------------------------------------------------------------
  // Memory map
  // ---------------------------------------------------------------------

  /** Bit 0 of the control register disables the ROM. */
  predicate RomEnabled(ctrl: Byte) { ctrl % 2 == 0 }

  /** A memory read: ROM below `romSize` while the ROM is enabled, RAM everywhere else. */
  function Fetch(ram: seq<Byte>, rom: seq<Byte>, romSize: nat, ctrl: Byte, addr: Addr): Byte
    requires |ram| == RamSize && romSize <= |rom|
  {
    if RomEnabled(ctrl) && addr < romSize then rom[addr] else ram[addr]
  }

  /** A write lands in RAM; reading it back gives it unless the ROM shadows that address. */
  lemma ReadAfterWrite(ram: seq<Byte>, rom: seq<Byte>, romSize: nat, ctrl: Byte, a: Addr, v: Byte, b: Addr)
    requires |ram| == RamSize && romSize <= |rom|
    ensures Fetch(ram[a := v], rom, romSize, ctrl, b) ==
      if b == a && !(RomEnabled(ctrl) && a < romSize) then v else Fetch(ram, rom, romSize, ctrl, b)
  {
  }

  /** Switching the ROM off exposes the RAM written underneath it. */
  lemma ShadowedWriteVisibleAfterRomOff(ram: seq<Byte>, rom: seq<Byte>, romSize: nat, ctrl: Byte, a: Addr, v: Byte)
    requires |ram| == RamSize && romSize <= |rom|
    requires !RomEnabled(ctrl)
    ensures Fetch(ram[a := v], rom, romSize, ctrl, a) == v
  {
  }

  /** At or above the ROM size, bit 0 of the control register makes no difference. */
  lemma CtrlIrrelevantAboveRom(ram: seq<Byte>, rom: seq<Byte>, romSize: nat, c1: Byte, c2: Byte, addr: Addr)
    requires |ram| == RamSize && romSize <= |rom|
    requires addr >= romSize
    ensures Fetch(ram, rom, romSize, c1, addr) == Fetch(ram, rom, romSize, c2, addr) == ram[addr]
  {
  }

  // ---------------------------------------------------------------------
  // I/O ports
  // ---------------------------------------------------------------------

  /**
   * The value an IN instruction on `port` receives. `key` is the keyboard
   * latch, `ext` the byte the modem or the video chip would supply.
   */
  function PortIn(port: Byte, key: Byte, gotModem: bool, ext: Byte): Byte {
    if port == ModemPort then (if gotModem then ext else 0)
    else if port == KeyDataPort then (if key == 255 then 0 else key)
    else if port == KeyStatusPort then (if key != 0 then 0xFF else 0x00)
    else if port == VdpDataPort || port == VdpCtrlPort then ext
    else 0
  }

  /** The keyboard latch after an IN on `port`: only the data port empties it. */
  function KeyAfterPortIn(port: Byte, key: Byte): Byte {
    if port == KeyDataPort then 0 else key
  }

  /** The status port reports "key pending" exactly when the latch is not empty. */
  lemma KeyStatusReportsLatch(key: Byte, gotModem: bool, ext: Byte)
    ensures PortIn(KeyStatusPort, key, gotModem, ext) == 0xFF <==> key != 0
    ensures PortIn(KeyStatusPort, key, gotModem, ext) == 0x00 <==> key == 0
  {
  }

  /** Reading the data port hands over the latched byte (0xFF as 0x00) and empties the latch. */
  lemma KeyReadConsumes(key: Byte, gotModem: bool, ext: Byte, ext2: Byte)
    ensures PortIn(KeyDataPort, key, gotModem, ext) == if key == 0xFF then 0 else key
    ensures KeyAfterPortIn(KeyDataPort, key) == 0
    ensures PortIn(KeyDataPort, KeyAfterPortIn(KeyDataPort, key), gotModem, ext2) == 0
    ensures PortIn(KeyStatusPort, KeyAfterPortIn(KeyDataPort, key), gotModem, ext2) == 0
  {
  }

  /** The PSG ports and every unmapped port read as 0, and only port 0x90 touches the latch. */
  lemma QuietPortsReadZero(port: Byte, key: Byte, gotModem: bool, ext: Byte)
    requires port !in {ModemPort, KeyDataPort, KeyStatusPort, VdpDataPort, VdpCtrlPort}
    ensures PortIn(port, key, gotModem, ext) == 0
    ensures KeyAfterPortIn(port, key) == key
  {
  }

  /** A byte an OUT instruction hands to a device outside the model. */
  datatype Outbound = NoDevice | ToModem(b: Byte) | ToVdpData(b: Byte) | ToVdpAddr(b: Byte)

  /** Where an OUT on `port` sends `val` (the control register aside). */
  function PortOut(port: Byte, val: Byte, gotModem: bool): Outbound {
    if port == ModemPort && gotModem then ToModem(val)
    else if port == VdpDataPort then ToVdpData(val)
    else if port == VdpCtrlPort then ToVdpAddr(val)
    else NoDevice
  }

  /** The control register after an OUT on `port`. */
  function CtrlAfterPortOut(port: Byte, val: Byte, ctrl: Byte): Byte {
    if port == CtrlPort then val else ctrl
  }

  /** The control register is write-only through port 0; no other port reaches it. */
  lemma CtrlOnlyViaPortZero(port: Byte, val: Byte, ctrl: Byte, gotModem: bool)
    ensures CtrlAfterPortOut(port, val, ctrl) == val || CtrlAfterPortOut(port, val, ctrl) == ctrl
    ensures port != CtrlPort ==> CtrlAfterPortOut(port, val, ctrl) == ctrl
    ensures port == CtrlPort ==> PortOut(port, val, gotModem) == NoDevice
  {
  }

  // ---------------------------------------------------------------------
  // The platform
  // ---------------------------------------------------------------------

  /** One turn of the main loop: the host events pending and the T-states the next instruction takes. */
  datatype Tick = Tick(events: seq<HostEvent>, cycles: nat)

  /**
   * What the main loop reads and writes: the cycle counter, the next
   * boundary, the keyboard latch and its idle count, the scanline, the
   * frames presented and the exit flag.
   */
  datatype LoopState = LoopState(cyc: nat, next: nat, key: Byte, idle: nat, line: int, frames: nat, dead: bool)

  predicate LineOk(s: LoopState) { 0 <= s.line < LinesPerFrame }

  /** Scanlines elapsed since the first frame began. */
  function Position(s: LoopState): int { s.frames * LinesPerFrame + s.line }

  /**
   * One scanline boundary: the host events, the watchdog, the scanline
   * (presenting a frame on wrap) and the next boundary 228 T-states on.
   */
  function Boundary(s: LoopState, events: seq<HostEvent>): (r: LoopState)
    requires LineOk(s)
    ensures LineOk(r) && r.idle < WatchdogLimit
    ensures Position(r) == Position(s) + 1
    ensures !AnyReset(events) ==> r.next == s.next + CyclesPerLine && r.cyc == s.cyc
    ensures AnyReset(events) ==> r.next == 2 * CyclesPerLine && r.cyc == 0
  {
    var reset := AnyReset(events);
    var l := WatchdogTick(Latch(KeyAfterEvents(s.key, events), s.idle));
    LoopState(if reset then 0 else s.cyc,
              (if reset then CyclesPerLine else s.next) + CyclesPerLine,
              l.key, l.idle, NextScanline(s.line),
              s.frames + (if EndsFrame(s.line) then 1 else 0),
              s.dead || AnyQuit(events))
  }

  /** `Boundary` is pinned down field by field. */
  lemma BoundaryByFields(s: LoopState, events: seq<HostEvent>, r: LoopState)
    requires LineOk(s)
    requires Latch(r.key, r.idle) == WatchdogTick(Latch(KeyAfterEvents(s.key, events), s.idle))
    requires r.line == NextScanline(s.line)
    requires r.frames == s.frames + (if EndsFrame(s.line) then 1 else 0)
    requires r.next == (if AnyReset(events) then CyclesPerLine else s.next) + CyclesPerLine
    requires r.cyc == (if AnyReset(events) then 0 else s.cyc)
    requires r.dead == (s.dead || AnyQuit(events))
    ensures r == Boundary(s, events)
  {
  }

  /** One turn of the loop: a boundary exactly when the counter has passed `next`, then one instruction. */
  function TickStep(s: LoopState, t: Tick): (r: LoopState)
    requires LineOk(s)
    ensures LineOk(r)
    ensures Position(r) == Position(s) + (if s.cyc > s.next then 1 else 0)
    ensures s.cyc <= s.next ==> r == s.(cyc := s.cyc + t.cycles)
    ensures r.dead == (s.dead || (s.cyc > s.next && AnyQuit(t.events)))
  {
    var b := if s.cyc > s.next then Boundary(s, t.events) else s;
    b.(cyc := b.cyc + t.cycles)
  }

  /** The state after a sequence of turns, taken in order. */
  function RunFold(s: LoopState, ts: seq<Tick>): (r: LoopState)
    requires LineOk(s)
    ensures LineOk(r)
  {
    if ts == [] then s else TickStep(RunFold(s, ts[..|ts| - 1]), ts[|ts| - 1])
  }

  function SumCycles(ts: seq<Tick>): nat {
    if ts == [] then 0 else SumCycles(ts[..|ts| - 1]) + ts[|ts| - 1].cycles
  }

  predicate NoReset(ts: seq<Tick>) {
    forall i :: 0 <= i < |ts| ==> !AnyReset(ts[i].events)
  }

  /**
   * Without a CPU reset, the boundary moves 228 T-states per scanline
   * elapsed, and the cycle counter grows by exactly the cycles executed.
   */
  lemma {:induction false} BudgetFollowsBoundaries(s: LoopState, ts: seq<Tick>)
    requires LineOk(s) && NoReset(ts)
    ensures RunFold(s, ts).next == s.next + CyclesPerLine * (Position(RunFold(s, ts)) - Position(s))
    ensures RunFold(s, ts).cyc == s.cyc + SumCycles(ts)
  {
    if ts != [] {
      var init := ts[..|ts| - 1];
      assert NoReset(init) by {
        forall i | 0 <= i < |init| ensures !AnyReset(init[i].events) {
          assert init[i] == ts[i];
        }
      }
      BudgetFollowsBoundaries(s, init);
      assert !AnyReset(ts[|ts| - 1].events);
    }
  }

  class Platform {
    var ram: array<Byte>
    var rom: array<Byte>
    var romSize: nat
    var ctrlreg: Byte
    /** The single-byte keyboard latch; 0 means empty. */
    var nextKey: Byte
    /** Idle scanlines counted by the watchdog. */
    var nextWatchdog: nat
    var scanline: int
    /** The cycle count at which the next scanline boundary is due. */
    var next: nat
    /** The Z80 core's cycle counter. */
    var cyc: nat
    var gotModem: bool
    var deathFlag: bool
    /** How many frames have been presented. */
    ghost var frames: nat

    /** The fields the main loop works on. */
    ghost function State(): LoopState
      reads this
    {
      LoopState(cyc, next, nextKey, nextWatchdog, scanline, frames, deathFlag)
    }

    ghost predicate Valid()
      reads this
    {
      ram.Length == RamSize && rom.Length == RomCapacity &&
      (romSize == 4096 || romSize == 8192) &&
      0 <= scanline < LinesPerFrame &&
      nextWatchdog < WatchdogLimit
    }

    /**
     * The start-up sequence of `main`: the ROM image loaded (its size already
     * checked to be 4K or 8K), the modem state recorded, the control register
     * preset, the CPU initialised and the loop counters cleared.
     */
    constructor (romImage: seq<Byte>, modemUp: bool)
      requires |romImage| == 4096 || |romImage| == 8192
      ensures Valid() && fresh(ram) && fresh(rom)
      ensures romSize == |romImage| && rom[..romSize] == romImage
      ensures forall i :: 0 <= i < RamSize ==> ram[i] == 0
      ensures gotModem == modemUp && ctrlreg == InitialCtrl
      ensures nextKey == PowerUpKey && next == CyclesPerLine && cyc == 0
      ensures scanline == 0 && nextWatchdog == 0 && !deathFlag && frames == 0
    {
      ram := new Byte[RamSize](_ => 0);
      rom := new Byte[RomCapacity](i => if 0 <= i < |romImage| then romImage[i] else 0);
      romSize := |romImage|;
      gotModem := modemUp;
      ctrlreg := InitialCtrl;
      scanline, nextWatchdog, deathFlag, frames := 0, 0, false, 0;
      new;
      InitCpu();
    }

    /** `init_cpu`: the CPU core reset, the first boundary at 228 T-states, and the power-up byte latched. */
    method InitCpu()
      modifies this`cyc, this`next, this`nextKey
      ensures cyc == 0 && next == CyclesPerLine && nextKey == PowerUpKey
    {
      cyc := 0;
      next := CyclesPerLine;
      nextKey := PowerUpKey;
    }

    /** `mem_read`: what the CPU sees at `addr`; nothing changes. */
    method MemRead(addr: Addr) returns (v: Byte)
      requires Valid()
      ensures v == Fetch(ram[..], rom[..], romSize, ctrlreg, addr)
      ensures RomEnabled(ctrlreg) && addr < romSize ==> v == rom[addr]
      ensures !(RomEnabled(ctrlreg) && addr < romSize) ==> v == ram[addr]
    {
      if RomEnabled(ctrlreg) && addr < romSize {
        v := rom[addr];
      } else {
        v := ram[addr];
      }
    }

    /** `mem_write`: always RAM, whatever the control register says. */
    method MemWrite(addr: Addr, val: Byte)
      requires Valid()
      modifies ram
      ensures Valid()
      ensures ram[..] == old(ram[..])[addr := val]
      ensures rom[..] == old(rom[..])
    {
      ram[addr] := val;
    }

    /** `port_read`: the byte an IN receives; a read of port 0x90 empties the keyboard latch. */
    method PortRead(port: Byte, ext: Byte) returns (v: Byte)
      requires Valid()
      modifies this`nextKey
      ensures Valid()
      ensures v == PortIn(port, old(nextKey), gotModem, ext)
      ensures nextKey == KeyAfterPortIn(port, old(nextKey))
    {
      if port == PsgDataPort || port == PsgLatchPort {
        v := 0;
      } else if port == ModemPort {
        v := if gotModem then ext else 0;
      } else if port == KeyDataPort {
        var t := nextKey;
        nextKey := 0;
        v := if t == 255 then 0 else t;
      } else if port == KeyStatusPort {
        v := if nextKey != 0 then 0xFF else 0x00;
      } else if port == VdpDataPort || port == VdpCtrlPort {
        v := ext;
      } else {
        v := 0;
      }
    }

    /** `port_write`: port 0 loads the control register; the device ports forward the byte. */
    method PortWrite(port: Byte, val: Byte) returns (sent: Outbound)
      requires Valid()
      modifies this`ctrlreg
      ensures Valid()
      ensures ctrlreg == CtrlAfterPortOut(port, val, old(ctrlreg))
      ensures sent == PortOut(port, val, gotModem)
    {
      sent := NoDevice;
      if port == CtrlPort {
        ctrlreg := val;
      } else if port == ModemPort {
        if gotModem {
          sent := ToModem(val);
        }
      } else if port == VdpDataPort {
        sent := ToVdpData(val);
      } else if port == VdpCtrlPort {
        sent := ToVdpAddr(val);
      }
    }

    /** One host event as `every_scanline` handles it. */
    method HandleEvent(e: HostEvent)
      requires Valid()
      modifies this`nextKey, this`deathFlag, this`cyc, this`next
      ensures Valid()
      ensures nextKey == KeyAfterEvent(old(nextKey), e)
      ensures deathFlag == (old(deathFlag) || IsQuit(e))
      ensures cyc == (if IsReset(e) then 0 else old(cyc))
      ensures next == (if IsReset(e) then CyclesPerLine else old(next))
    {
      match e
      case KeyUp(s) =>
        var code := BreakCode(s);
        if code.Some? {
          nextKey := code.value;
        }
      case KeyDown(s, m) =>
        match s {
          case Char(c) => nextKey := Translate(c, m);
          case F3 => InitCpu();
          case F4 => if m.alt { deathFlag := true; }
          case F10 => deathFlag := true;
          case _ =>
        }
      case QuitRequest => deathFlag := true;
      case OtherEvent =>
    }

    /** The event loop of `every_scanline`: every pending host event, in order. */
    method EveryScanline(events: seq<HostEvent>)
      requires Valid()
      modifies this`nextKey, this`deathFlag, this`cyc, this`next
      ensures Valid()
      ensures nextKey == KeyAfterEvents(old(nextKey), events)
      ensures deathFlag == (old(deathFlag) || AnyQuit(events))
      ensures cyc == (if AnyReset(events) then 0 else old(cyc))
      ensures next == (if AnyReset(events) then CyclesPerLine else old(next))
    {
      var i := 0;
      while i < |events|
        invariant 0 <= i <= |events|
        invariant Valid()
        invariant nextKey == KeyAfterEvents(old(nextKey), events[..i])
        invariant deathFlag == (old(deathFlag) || AnyQuit(events[..i]))
        invariant cyc == (if AnyReset(events[..i]) then 0 else old(cyc))
        invariant next == (if AnyReset(events[..i]) then CyclesPerLine else old(next))
      {
        assert events[..i + 1][..i] == events[..i];
        HandleEvent(events[i]);
        i := i + 1;
      }
      assert events[..|events|] == events;
    }

    /**
     * The work done when the cycle counter passes `next`: host events, the
     * watchdog, the scanline counter (presenting a frame when it wraps) and
     * the next boundary 228 T-states on.
     */
    method ScanlineBoundary(events: seq<HostEvent>)
      requires Valid()
      modifies this`nextKey, this`deathFlag, this`cyc, this`next, this`nextWatchdog, this`scanline, this`frames
      ensures Valid()
      ensures Latch(nextKey, nextWatchdog) ==
        WatchdogTick(Latch(KeyAfterEvents(old(nextKey), events), old(nextWatchdog)))
      ensures scanline == NextScanline(old(scanline))
      ensures frames == old(frames) + (if EndsFrame(old(scanline)) then 1 else 0)
      ensures next == (if AnyReset(events) then CyclesPerLine else old(next)) + CyclesPerLine
      ensures cyc == (if AnyReset(events) then 0 else old(cyc))
      ensures deathFlag == (old(deathFlag) || AnyQuit(events))
    {
      EveryScanline(events);
      if nextKey == 0 {
        nextWatchdog := nextWatchdog + 1;
        if nextWatchdog >= WatchdogLimit {
          nextWatchdog := 0;
          nextKey := WatchdogKey;
        }
      } else {
        nextWatchdog := 0;
      }
      scanline := scanline + 1;
      if scanline > 261 {
        scanline := 0;
        frames := frames + 1;
      }
      next := next + CyclesPerLine;
    }

    /**
     * One turn of the main loop: the scanline boundary if the cycle counter
     * has passed `next`, then one instruction of `t.cycles` T-states.
     */
    method Turn(t: Tick) returns (crossed: bool)
      requires Valid()
      modifies this`nextKey, this`deathFlag, this`cyc, this`next, this`nextWatchdog, this`scanline, this`frames
      ensures Valid()
      ensures crossed == (old(cyc) > old(next))
      ensures State() == TickStep(old(State()), t)
    {
      crossed := cyc > next;
      if crossed {
        ghost var before := State();
        ScanlineBoundary(t.events);
        BoundaryByFields(before, t.events, State());
      }
      cyc := cyc + t.cycles;
    }

    /**
     * The main loop over a run of instructions: a boundary whenever the cycle
     * counter has passed `next`, then one instruction; it stops once the exit
     * flag is raised or the input runs out.
     */
    method Run(ticks: seq<Tick>) returns (executed: nat, boundaries: nat)
      requires Valid()
      modifies this`nextKey, this`deathFlag, this`cyc, this`next, this`nextWatchdog, this`scanline, this`frames
      ensures Valid()
      ensures boundaries <= executed <= |ticks|
      ensures State() == RunFold(old(State()), ticks[..executed])
      ensures forall j :: 0 <= j < executed ==> !RunFold(old(State()), ticks[..j]).dead
      ensures executed < |ticks| ==> deathFlag
      ensures frames * LinesPerFrame + scanline == old(frames) * LinesPerFrame + old(scanline) + boundaries
    {
      ghost var start := State();
      executed, boundaries := 0, 0;
      while executed < |ticks| && !deathFlag
        invariant Valid()
        invariant boundaries <= executed <= |ticks|
        invariant State() == RunFold(start, ticks[..executed])
        invariant forall j :: 0 <= j < executed ==> !RunFold(start, ticks[..j]).dead
        invariant Position(State()) == Position(start) + boundaries
      {
        ghost var before := State();
        assert ticks[..executed + 1][..executed] == ticks[..executed];
        assert RunFold(start, ticks[..executed + 1]) == TickStep(before, ticks[executed]);
        var crossed := Turn(ticks[executed]);
        if crossed {
          boundaries := boundaries + 1;
        }
        executed := executed + 1;
      }
    }
  }

  /**
   * Cold start seen from the CPU: the first read of port 0x90 yields the
   * power-up byte, after which the status port reports nothing pending and a
   * second read yields 0.
   */
  method ColdStartKeyboard(romImage: seq<Byte>, modemUp: bool) returns (first: Byte, status: Byte, second: Byte)
    requires |romImage| == 4096 || |romImage| == 8192
    ensures first == PowerUpKey && status == 0 && second == 0
  {
    var p := new Platform(romImage, modemUp);
    first := p.PortRead(KeyDataPort, 0);
    status := p.PortRead(KeyStatusPort, 0);
    second := p.PortRead(KeyDataPort, 0);
  }
}
