/**
 * The per-scanline bookkeeping of the main loop: the keyboard watchdog, the
 * scanline counter and the cycle budget, as functions of the previous state.
 */
module Timing {
  import opened Types

  /** Z80 T-states granted per scanline. */
  const CyclesPerLine: nat := 228
  /** Scanlines per NTSC frame; the counter runs 0..261. */
  const LinesPerFrame: nat := 262
  /** Idle scanlines after which the keyboard "kicks the dog". */
  const WatchdogLimit: nat := 58000
  /** The byte the keyboard sends as its keep-alive. */
  const WatchdogKey: Byte := 0x94
  /** The byte the keyboard sends when it powers up. */
  const PowerUpKey: Byte := 0x95

  /** The keyboard latch together with the count of idle scanlines. */
  datatype Latch = Latch(key: Byte, idle: nat)

  /**
   * The watchdog check at one scanline boundary: an empty latch counts one
   * more idle scanline and, on reaching the limit, is refilled with the
   * keep-alive byte; a full latch resets the count.
   */
  function WatchdogTick(l: Latch): (r: Latch)
    ensures r.idle < WatchdogLimit
    ensures l.key != 0 ==> r == Latch(l.key, 0)
    ensures r.key != l.key ==> l.key == 0 && r == Latch(WatchdogKey, 0)
    ensures l.key == 0 && l.idle + 1 < WatchdogLimit ==> r == Latch(0, l.idle + 1)
  {
    if l.key == 0 then
      if l.idle + 1 >= WatchdogLimit then Latch(WatchdogKey, 0) else Latch(0, l.idle + 1)
    else Latch(l.key, 0)
  }

  /** The latch after n boundaries at which nothing else touches it. */
  function WatchdogAfter(l: Latch, n: nat): Latch {
    if n == 0 then l else WatchdogTick(WatchdogAfter(l, n - 1))
  }

  /** While the limit is not reached, an empty latch only counts. */
  lemma {:induction false} WatchdogCounts(idle: nat, n: nat)
    requires idle + n < WatchdogLimit
    ensures WatchdogAfter(Latch(0, idle), n) == Latch(0, idle + n)
  {
    if n > 0 {
      WatchdogCounts(idle, n - 1);
    }
  }

  /**
   * From an empty latch with `idle` idle scanlines counted, the keep-alive
   * byte appears exactly at boundary WatchdogLimit - idle, and not before.
   */
  lemma WatchdogFires(idle: nat)
    requires idle < WatchdogLimit
    ensures WatchdogAfter(Latch(0, idle), WatchdogLimit - idle) == Latch(WatchdogKey, 0)
    ensures forall n :: 0 <= n < WatchdogLimit - idle ==> WatchdogAfter(Latch(0, idle), n).key == 0
  {
    WatchdogCounts(idle, WatchdogLimit - idle - 1);
    forall n | 0 <= n < WatchdogLimit - idle
      ensures WatchdogAfter(Latch(0, idle), n).key == 0
    {
      WatchdogCounts(idle, n);
    }
  }

  /** A byte left unread stays in the latch and keeps the count at zero. */
  lemma {:induction false} PendingKeyHeld(l: Latch, n: nat)
    requires l.key != 0 && n > 0
    ensures WatchdogAfter(l, n) == Latch(l.key, 0)
  {
    if n > 1 {
      PendingKeyHeld(l, n - 1);
    }
  }

  /** `scanline++`, then back to 0 once it passes 261. */
  function NextScanline(line: int): (r: int)
    requires 0 <= line < LinesPerFrame
    ensures 0 <= r < LinesPerFrame
    ensures r == (line + 1) % LinesPerFrame
  {
    if line + 1 > 261 then 0 else line + 1
  }

  /** Does the boundary leaving `line` complete a frame (present it)? */
  predicate EndsFrame(line: int) { line + 1 > 261 }

  function ScanlineAfter(line: int, n: nat): (r: int)
    requires 0 <= line < LinesPerFrame
    ensures 0 <= r < LinesPerFrame
  {
    if n == 0 then line else NextScanline(ScanlineAfter(line, n - 1))
  }

  /** The number of frames presented during n boundaries starting at `line`. */
  function FramesAfter(line: int, n: nat): nat
    requires 0 <= line < LinesPerFrame
  {
    if n == 0 then 0
    else FramesAfter(line, n - 1) + if EndsFrame(ScanlineAfter(line, n - 1)) then 1 else 0
  }

  /**
   * After n boundaries the counter has advanced by n modulo 262, and one
   * frame has been presented per wrap.
   */
  lemma {:induction false} ScanlineCycle(line: int, n: nat)
    requires 0 <= line < LinesPerFrame
    ensures ScanlineAfter(line, n) == (line + n) % LinesPerFrame
    ensures FramesAfter(line, n) == (line + n) / LinesPerFrame
  {
    if n > 0 {
      ScanlineCycle(line, n - 1);
      var x := line + n - 1;
      var q, r := x / 262, x % 262;
      assert x == q * 262 + r;
      if r == 261 {
        assert x + 1 == (q + 1) * 262 + 0;
      } else {
        assert x + 1 == q * 262 + (r + 1);
      }
    }
  }

  /** Every 262 boundaries the counter is back where it was, with one frame presented. */
  lemma OneFramePer262(line: int)
    requires 0 <= line < LinesPerFrame
    ensures ScanlineAfter(line, LinesPerFrame) == line
    ensures FramesAfter(line, LinesPerFrame) == 1
  {
    ScanlineCycle(line, LinesPerFrame);
    assert line + 262 == 1 * 262 + line;
  }
}
