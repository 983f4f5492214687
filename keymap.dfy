/**
 * Host keyboard events and their translation into the byte the NABU keyboard
 * would send (the key-up break codes of main.c and the Shift/Ctrl/Caps
 * translation of a key-down).
 */
module Keymap {
  import opened Types

  /** A host key symbol below 128, i.e. the keycode of an ASCII key. */
  type AsciiSym = c: int | 0 <= c < 128

  /**
   * The host key symbols the emulator looks at. `Char` covers every symbol
   * below 128, Delete (0x7F) among them; the named keys all have symbols of
   * 128 or more, so a key-down of one of them never reaches the translation.
   */
  datatype KeySym =
    | Char(code: AsciiSym)
    | Up | Down | Left | Right | Home | End | Insert | Pause | PageDown
    | F3 | F4 | F10
    | OtherKey

  /** The symbol of the Delete key (the NABU's NO key). */
  const DeleteSym: AsciiSym := 0x7F

  /** The modifier state sampled when a key goes down. */
  datatype Modifiers = Modifiers(ctrl: bool, shift: bool, caps: bool, alt: bool)

  datatype HostEvent =
    | KeyDown(sym: KeySym, mods: Modifiers)
    | KeyUp(key: KeySym)
    | QuitRequest
    | OtherEvent

  predicate IsLower(k: int) { 'a' as int <= k <= 'z' as int }
  predicate IsUpper(k: int) { 'A' as int <= k <= 'Z' as int }
  predicate IsDigit(k: int) { '0' as int <= k <= '9' as int }

  /** `k ^ 0x20`: flips bit 5, which toggles the case of an ASCII letter. */
  function FlipCase(k: nat): (r: nat)
    ensures IsLower(k) ==> IsUpper(r) && r == k - 32
    ensures IsUpper(k) ==> IsLower(r) && r == k + 32
  {
    if (k / 32) % 2 == 1 then k - 32 else k + 32
  }

  /** The Ctrl rewrites of four punctuation keys (ESC, FS, GS, US). */
  function CtrlPunct(k: AsciiSym): AsciiSym {
    if k == '[' as int then 0x1B
    else if k == '\\' as int then 0x1C
    else if k == ']' as int then 0x1D
    else if k == '-' as int then 0x1F
    else k
  }

  /**
   * The Shift rewrites of the punctuation keys. The source applies them as a
   * chain of independent tests; no rewritten value matches a later test, so
   * one choice is the same thing.
   */
  function ShiftPunct(k: AsciiSym): AsciiSym {
    if k == '`' as int then '~' as int
    else if k == '-' as int then '_' as int
    else if k == '=' as int then '+' as int
    else if k == '[' as int then '{' as int
    else if k == ']' as int then '}' as int
    else if k == '\\' as int then '|' as int
    else if k == ';' as int then ':' as int
    else if k == '\'' as int then '"' as int
    else if k == ',' as int then '<' as int
    else if k == '.' as int then '>' as int
    else if k == '/' as int then '?' as int
    else k
  }

  /** The shifted digit row, indexed by the digit's low nibble. */
  const ShiftNums: string := ")!@#$%^&*("

  /**
   * The byte a key-down of an ASCII symbol puts in the keyboard latch.
   * 0xFF stands for Ctrl-2 (NUL); the port read turns it into 0x00.
   */
  function Translate(sym: AsciiSym, m: Modifiers): (r: Byte)
    ensures r < 0x80 || r == 0xFF
    ensures r == 0xFF <==> m.ctrl && sym == '2' as int
    ensures !m.ctrl && !m.shift && !(m.caps && IsLower(sym)) ==> r == sym
    ensures IsLower(sym) && m.ctrl ==> r == sym - 0x60
    ensures IsLower(sym) && !m.ctrl ==> r == if m.caps != m.shift then sym - 32 else sym
  {
    var k1 := if m.ctrl then CtrlPunct(sym) else sym;
    var k2 := if m.shift then ShiftPunct(k1) else k1;
    if IsLower(k2) then
      var k3 := if m.caps then FlipCase(k2) else k2;
      var k4 := if m.shift then FlipCase(k3) else k3;
      if m.ctrl then k4 % 32 else k4
    else if IsDigit(k2) then
      if m.ctrl then
        (if k2 == '2' as int then 0xFF else if k2 == '6' as int then 0x1E else k2)
      else if m.shift then ShiftNums[k2 % 16] as int
      else k2
    else k2
  }

  /** The break code a key-up sends, for the ten keys that have one. */
  function BreakCode(s: KeySym): (r: Option<Byte>)
    ensures r.Some? ==> 0xF0 <= r.value <= 0xFA && r.value != 0xF8
    ensures r.Some? <==> !(s.F3? || s.F4? || s.F10? || s.OtherKey? || (s.Char? && s.code != DeleteSym))
  {
    match s
    case Char(c) => if c == DeleteSym then Some(0xF6) else None
    case Up => Some(0xF2)
    case Down => Some(0xF3)
    case Left => Some(0xF1)
    case Right => Some(0xF0)
    case Home => Some(0xF5)
    case End => Some(0xF4)
    case Insert => Some(0xF7)
    case Pause => Some(0xF9)
    case PageDown => Some(0xFA)
    case _ => None
  }

  /** Pressing F3 resets the emulated CPU. */
  predicate IsReset(e: HostEvent) { e.KeyDown? && e.sym.F3? }

  /** A window close, F10, or Alt-F4 stops the emulator. */
  predicate IsQuit(e: HostEvent) {
    e.QuitRequest? || (e.KeyDown? && (e.sym.F10? || (e.sym.F4? && e.mods.alt)))
  }

  /** The keyboard latch after one host event. */
  function KeyAfterEvent(key: Byte, e: HostEvent): Byte {
    match e
    case KeyDown(Char(c), m) => Translate(c, m)
    case KeyDown(F3, _) => 0x95
    case KeyUp(s) => if BreakCode(s).Some? then BreakCode(s).value else key
    case _ => key
  }

  /** Does this event write the keyboard latch at all? */
  predicate WritesKey(e: HostEvent) {
    (e.KeyDown? && (e.sym.Char? || e.sym.F3?)) || (e.KeyUp? && BreakCode(e.key).Some?)
  }

  /** The keyboard latch after a batch of host events handled in order. */
  function KeyAfterEvents(key: Byte, es: seq<HostEvent>): Byte {
    if es == [] then key else KeyAfterEvent(KeyAfterEvents(key, es[..|es| - 1]), es[|es| - 1])
  }

  predicate AnyReset(es: seq<HostEvent>) {
    es != [] && (AnyReset(es[..|es| - 1]) || IsReset(es[|es| - 1]))
  }

  predicate AnyQuit(es: seq<HostEvent>) {
    es != [] && (AnyQuit(es[..|es| - 1]) || IsQuit(es[|es| - 1]))
  }

  /** An event that does not write the latch leaves it as it was. */
  lemma NonKeyEventKeepsKey(key: Byte, e: HostEvent)
    requires !WritesKey(e)
    ensures KeyAfterEvent(key, e) == key
  {
  }

  /** A batch with no key-writing event leaves the latch as it was. */
  lemma {:induction false} QuietEventsKeepKey(key: Byte, es: seq<HostEvent>)
    requires forall i :: 0 <= i < |es| ==> !WritesKey(es[i])
    ensures KeyAfterEvents(key, es) == key
  {
    if es != [] {
      QuietEventsKeepKey(key, es[..|es| - 1]);
      NonKeyEventKeepsKey(key, es[|es| - 1]);
    }
  }

  /**
   * The latch after a batch is set by the last key-writing event in it,
   * whatever the latch held before.
   */
  lemma {:induction false} LastKeyEventWins(key: Byte, es: seq<HostEvent>, j: nat)
    requires j < |es| && WritesKey(es[j])
    requires forall i :: j < i < |es| ==> !WritesKey(es[i])
    ensures KeyAfterEvents(key, es) == KeyAfterEvent(0, es[j])
  {
    if j == |es| - 1 {
    } else {
      LastKeyEventWins(key, es[..|es| - 1], j);
      NonKeyEventKeepsKey(KeyAfterEvents(key, es[..|es| - 1]), es[|es| - 1]);
    }
  }

  /**
   * Delete goes down as 0x7F (the translation leaves it alone) and comes up
   * as the break code 0xF6.
   */
  lemma DeleteKey(key: Byte, m: Modifiers)
    ensures KeyAfterEvent(key, KeyDown(Char(DeleteSym), m)) == 0x7F
    ensures KeyAfterEvent(key, KeyUp(Char(DeleteSym))) == 0xF6
  {
  }

  /** Caps Lock only changes letters. */
  lemma CapsOnlyAffectsLetters(sym: AsciiSym, m: Modifiers)
    requires !IsLower(sym)
    ensures Translate(sym, m) == Translate(sym, m.(caps := !m.caps))
  {
  }

  /** Shift on the digit row gives the symbols printed above the digits. */
  lemma ShiftedDigits(sym: AsciiSym, m: Modifiers)
    requires IsDigit(sym) && m.shift && !m.ctrl
    ensures Translate(sym, m) == ShiftNums[sym - '0' as int] as int
  {
  }

  /** Ctrl is applied before Shift: Ctrl-Shift-minus is still US (0x1F). */
  lemma CtrlBeforeShift(m: Modifiers)
    requires m.ctrl
    ensures Translate('-' as int, m) == 0x1F
    ensures Translate('[' as int, m) == 0x1B
  {
  }
}
