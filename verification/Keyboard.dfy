/** The scan code handler of arch/i386/drivers/keyboard.c: which bytes a key stands for, and what reaches the reader. */
module Keyboard {
  import opened Seqs
  import opened Ring

  type Bytes = seq<nat>

  const BUFFER_SIZE: nat := 1024
  const ESC: nat := 0x1b
  const BRACKET: nat := 0x5b
  const TILDE: nat := 0x7e

  datatype Keys = Keys(lCtrl: bool, rCtrl: bool, lShift: bool, rShift: bool, lAlt: bool, rAlt: bool)

  datatype Led = Led(numLock: bool, capsLock: bool)

  /** What the next scan code depends on. */
  datatype Mode = Mode(key: Keys, led: Led, esc: nat)

  predicate Ctrl(m: Mode) { m.key.lCtrl || m.key.rCtrl }
  predicate Shift(m: Mode) { m.key.lShift || m.key.rShift }

  predicate Pressed(code: nat) { code < 0x80 }

  datatype Handler = Chr | Control | LShift | RShift | Alt | CapsLock | NumLock | ScrollLock | SysRq | Keypad | Fn | ChrKeypad

  /** The table of handlers; it has 0x55 entries. */
  function HandlerOf(bare: nat): Handler
    requires bare < 0x55
  {
    if bare == 0x1d then Control
    else if bare == 0x2a then LShift
    else if bare == 0x35 then ChrKeypad
    else if bare == 0x36 then RShift
    else if bare == 0x37 then Keypad
    else if bare == 0x38 then Alt
    else if bare <= 0x39 then Chr
    else if bare == 0x3a then CapsLock
    else if bare <= 0x44 then Fn
    else if bare == 0x45 then NumLock
    else if bare == 0x46 then ScrollLock
    else if bare <= 0x53 then Keypad
    else SysRq
  }

  predicate Ascii(t: Bytes, n: nat) {
    |t| == n && forall k :: 0 <= k < n ==> t[k] < 0x80
  }

  /** The character tables by rows of keys: plain, with shift, with the right alt key. */
  function DigitRow(i: nat): (t: Bytes)
    ensures Ascii(t, 15)
  {
    if i == 0 then [0, 0x1b, 49, 50, 51, 52, 53, 54, 55, 56, 57, 48, 45, 61, 8]
    else if i == 1 then [0, 0x1b, 33, 64, 35, 36, 37, 94, 38, 42, 40, 41, 95, 43, 8]
    else [0, 0, 0, 64, 0, 36, 0, 0, 123, 91, 93, 125, 92, 0, 0]
  }

  function TabRow(i: nat): (t: Bytes)
    ensures Ascii(t, 14)
  {
    if i == 0 then [9, 113, 119, 101, 114, 116, 121, 117, 105, 111, 112, 91, 93, 10]
    else if i == 1 then [9, 81, 87, 69, 82, 84, 89, 85, 73, 79, 80, 123, 125, 10]
    else [0, 0, 0, 0, 0, 0, 0, 0, 0, 0, 0, 0, 126, 13]
  }

  function ControlRow(i: nat): (t: Bytes)
    ensures Ascii(t, 13)
  {
    if i == 0 then [0, 97, 115, 100, 102, 103, 104, 106, 107, 108, 59, 39, 96]
    else if i == 1 then [0, 65, 83, 68, 70, 71, 72, 74, 75, 76, 58, 34, 126]
    else [0, 0, 0, 0, 0, 0, 0, 0, 0, 0, 0, 0, 0]
  }

  function ShiftRow(i: nat): (t: Bytes)
    ensures Ascii(t, 16)
  {
    if i == 0 then [0, 92, 122, 120, 99, 118, 98, 110, 109, 44, 46, 47, 0, 42, 0, 32]
    else if i == 1 then [0, 124, 90, 88, 67, 86, 66, 78, 77, 60, 62, 63, 0, 42, 0, 32]
    else [0, 0, 0, 0, 0, 0, 0, 0, 0, 0, 0, 0, 0, 0, 0, 0]
  }

  function Layout(i: nat): (t: Bytes)
    ensures |t| == 0x3a && forall k :: 0 <= k < |t| ==> t[k] < 0x80
  {
    hide DigitRow, TabRow, ControlRow, ShiftRow;
    DigitRow(i) + TabRow(i) + ControlRow(i) + ShiftRow(i)
  }

  /** The keypad without and with num lock; the high bit marks the keys that end in a tilde. */
  function PadLayout(i: nat): (t: Bytes)
    ensures |t| == 13 && forall k :: 0 <= k < |t| ==> t[k] < 0x100 && t[k] != 0
  {
    if i == 0 then [72, 65, 0xb5, 45, 68, 53, 67, 43, 0xb4, 66, 0xb6, 0xb2, 0x7f]
    else [55, 56, 57, 45, 52, 53, 54, 43, 49, 50, 51, 48, 46]
  }

  predicate IsLower(c: nat) { 97 <= c <= 122 }
  predicate IsUpper(c: nat) { 65 <= c <= 90 }

  function SetHigh(c: nat): nat {
    if c < 0x80 then c + 0x80 else c
  }

  // ---- what a key stands for ----

  function ChrBytes(m: Mode, code: nat): Bytes
    requires code < 0x100 && code % 0x80 < 0x3a
  {
    hide Layout;
    if !Pressed(code) then []
    else
      var i := if m.key.rAlt then 2 else if Shift(m) then 1 else 0;
      var c := Layout(i)[code];
      if c == 0 then []
      else
        var c1 := if i != 1 && (m.led.capsLock || Ctrl(m)) && IsLower(c) then c - 32 else c;
        var c2 := if !Ctrl(m) then c1 else if 0x40 <= c1 < 0x60 then c1 - 0x40 else if c1 == 0x3f then 0x7f else c1;
        [if m.key.lAlt then SetHigh(c2) else c2]
  }

  /** Control, alt and delete restart the machine instead. */
  predicate Reboots(m: Mode, code: nat) {
    code == 0x53 && Ctrl(m) && (m.key.lAlt || m.key.rAlt)
  }

  function KeypadBytes(m: Mode, code: nat): Bytes
    requires code < 0x100 && (code % 0x80 == 0x37 || 0x47 <= code % 0x80 <= 0x53)
  {
    if !Pressed(code) || Reboots(m, code) then []
    else if m.esc == 0xe0 || !m.led.numLock || Shift(m) then
      if code == 0x37 then []
      else
        var c := PadLayout(0)[code - 0x47];
        if c >= 0x80 then [ESC, BRACKET, c - 0x80, TILDE]
        else if IsUpper(c) then [ESC, BRACKET, c]
        else [c]
    else if code == 0x37 then [42]
    else [PadLayout(1)[code - 0x47]]
  }

  function FnBytes(code: nat): Bytes
    requires code < 0x100 && 0x3b <= code % 0x80 <= 0x44
  {
    if Pressed(code) then [ESC, BRACKET, BRACKET, code - 0x3b + 65] else []
  }

  /** The bytes that a scan code stands for in a mode. */
  function Encoding(m: Mode, code: nat): Bytes
    requires code < 0x100
  {
    if code == 0xe0 || code == 0xe1 || code % 0x80 >= 0x55 then []
    else
      match HandlerOf(code % 0x80)
      case Chr => ChrBytes(m, code)
      case Keypad => KeypadBytes(m, code)
      case Fn => FnBytes(code)
      case ChrKeypad => if m.esc == 0xe0 then [47] else ChrBytes(m, code)
      case _ => []
  }

  lemma Prefixes(m: Mode, code: nat)
    requires code < 0x100 && Prefix(code)
    ensures Encoding(m, code) == [] && NextMode(m, code) == m.(esc := code)
  {}

  /** The mode after a scan code. Scroll lock switches num lock, as the driver does. */
  function NextMode(m: Mode, code: nat): Mode
    requires code < 0x100
  {
    if code == 0xe0 || code == 0xe1 then m.(esc := code)
    else if code % 0x80 >= 0x55 then m.(esc := 0)
    else
      var p, k := Pressed(code), m.key;
      match HandlerOf(code % 0x80)
      case Control => m.(esc := 0, key := if m.esc != 0 then k.(rCtrl := p) else k.(lCtrl := p))
      case LShift => m.(esc := 0, key := k.(lShift := p))
      case RShift => m.(esc := 0, key := k.(rShift := p))
      case Alt => m.(esc := 0, key := if m.esc != 0 then k.(rAlt := p) else k.(lAlt := p))
      case CapsLock => m.(esc := 0, led := if p then m.led.(capsLock := !m.led.capsLock) else m.led)
      case NumLock => m.(esc := 0, led := if p then m.led.(numLock := !m.led.numLock) else m.led)
      case ScrollLock => m.(esc := 0, led := if p then m.led.(numLock := !m.led.numLock) else m.led)
      case _ => m.(esc := 0)
  }

  /** A single byte, or one of the three forms of escape sequence, at its full length. */
  predicate Complete(b: Bytes) {
    || |b| == 1
    || (|b| == 3 && b[0] == ESC && b[1] == BRACKET && IsUpper(b[2]))
    || (|b| == 4 && b[0] == ESC && b[1] == BRACKET && 48 <= b[2] <= 57 && b[3] == TILDE)
    || (|b| == 4 && b[0] == ESC && b[1] == BRACKET && b[2] == BRACKET && 65 <= b[3] <= 74)
  }

  lemma EncodingComplete(m: Mode, code: nat)
    requires code < 0x100
    ensures Encoding(m, code) == [] || Complete(Encoding(m, code))
    ensures forall i :: 0 <= i < |Encoding(m, code)| ==> Encoding(m, code)[i] < 0x100
  {
    hide Layout;
  }

  // ---- the legends of the keys ----

  function Codes(s: string): (b: Bytes)
    ensures |b| == |s| && forall i :: 0 <= i < |s| ==> b[i] == s[i] as nat
  {
    seq(|s|, i requires 0 <= i < |s| => s[i] as nat)
  }

  lemma Rows(i: nat)
    ensures Layout(i)[0x02..0x0e] == DigitRow(i)[2..14] && Layout(i)[0x10..0x1c] == TabRow(i)[1..13]
    ensures Layout(i)[0x1e..0x2a] == ControlRow(i)[1..13] && Layout(i)[0x2b..0x36] == ShiftRow(i)[1..12]
  {
    hide DigitRow, TabRow, ControlRow, ShiftRow;
  }

  lemma DigitPlain()
    ensures DigitRow(0)[2..14] == Codes("1234567890-=")
  {}

  lemma DigitShifted()
    ensures DigitRow(1)[2..14] == Codes("!@#$%^&*()_+")
  {}

  lemma UpperPlain()
    ensures TabRow(0)[1..13] == Codes("qwertyuiop[]")
  {}

  lemma UpperShifted()
    ensures TabRow(1)[1..13] == Codes("QWERTYUIOP{}")
  {}

  lemma HomePlain()
    ensures ControlRow(0)[1..13] == Codes("asdfghjkl;'`")
  {}

  lemma HomeShifted()
    ensures ControlRow(1)[1..13] == Codes("ASDFGHJKL:\"~")
  {}

  lemma LowerPlain()
    ensures ShiftRow(0)[1..12] == Codes("\\zxcvbnm,./")
  {}

  lemma LowerShifted()
    ensures ShiftRow(1)[1..12] == Codes("|ZXCVBNM<>?")
  {}

  /** The rows of keys, as printed on them, without and with shift. */
  lemma Legends()
    ensures Layout(0)[0x02..0x0e] == Codes("1234567890-=") && Layout(1)[0x02..0x0e] == Codes("!@#$%^&*()_+")
    ensures Layout(0)[0x10..0x1c] == Codes("qwertyuiop[]") && Layout(1)[0x10..0x1c] == Codes("QWERTYUIOP{}")
    ensures Layout(0)[0x1e..0x2a] == Codes("asdfghjkl;'`") && Layout(1)[0x1e..0x2a] == Codes("ASDFGHJKL:\"~")
    ensures Layout(0)[0x2b..0x36] == Codes("\\zxcvbnm,./") && Layout(1)[0x2b..0x36] == Codes("|ZXCVBNM<>?")
  {
    hide Layout, DigitRow, TabRow, ControlRow, ShiftRow, Codes;
    Rows(0);
    Rows(1);
    DigitPlain();
    DigitShifted();
    UpperPlain();
    UpperShifted();
    HomePlain();
    HomeShifted();
    LowerPlain();
    LowerShifted();
  }

  /** Shift turns every letter into its capital. */
  lemma ShiftIsCapital(code: nat)
    requires code < 0x3a && IsLower(Layout(0)[code])
    ensures Layout(1)[code] == Layout(0)[code] - 32
  {
    hide Layout, DigitRow, TabRow, ControlRow, ShiftRow;
    RowOf(0, code);
    RowOf(1, code);
    DigitCapital(code);
    TabCapital(code - 0x0f);
    ControlCapital(code - 0x1d);
    ShiftCapital(code - 0x2a);
  }

  lemma RowOf(i: nat, code: nat)
    requires code < 0x3a
    ensures Layout(i)[code] == if code < 0x0f then DigitRow(i)[code] else if code < 0x1d then TabRow(i)[code - 0x0f]
                               else if code < 0x2a then ControlRow(i)[code - 0x1d] else ShiftRow(i)[code - 0x2a]
  {
    hide DigitRow, TabRow, ControlRow, ShiftRow;
  }

  lemma DigitCapital(k: int)
    ensures 0 <= k < 15 ==> !IsLower(DigitRow(0)[k])
  {}

  lemma TabCapital(k: int)
    ensures 0 <= k < 14 && IsLower(TabRow(0)[k]) ==> TabRow(1)[k] == TabRow(0)[k] - 32
  {}

  lemma ControlCapital(k: int)
    ensures 0 <= k < 13 && IsLower(ControlRow(0)[k]) ==> ControlRow(1)[k] == ControlRow(0)[k] - 32
  {}

  lemma ShiftCapital(k: int)
    ensures 0 <= k < 16 && IsLower(ShiftRow(0)[k]) ==> ShiftRow(1)[k] == ShiftRow(0)[k] - 32
  {}

  /** No modifier is down that changes what a key types. */
  predicate Bare(m: Mode) {
    !Ctrl(m) && !Shift(m) && !m.key.lAlt && !m.key.rAlt && !m.led.capsLock
  }

  /** A key alone types its legend, and with shift its shifted legend; releasing it types nothing. */
  lemma KeyTypesLegend(m: Mode, code: nat)
    requires Bare(m) && code < 0x3a
    ensures ChrBytes(m, code) == (if Layout(0)[code] == 0 then [] else [Layout(0)[code]])
    ensures ChrBytes(m.(key := m.key.(lShift := true)), code) == (if Layout(1)[code] == 0 then [] else [Layout(1)[code]])
    ensures ChrBytes(m.(key := m.key.(rShift := true)), code) == (if Layout(1)[code] == 0 then [] else [Layout(1)[code]])
    ensures ChrBytes(m.(key := m.key.(rAlt := true)), code) == (if Layout(2)[code] == 0 then [] else [Layout(2)[code]])
    ensures ChrBytes(m, code + 0x80) == []
  {
    hide Layout;
    ThirdHasNoLetters(code);
  }

  lemma ThirdHasNoLetters(code: nat)
    requires code < 0x3a
    ensures !IsLower(Layout(2)[code])
  {
    hide Layout;
    RowOf(2, code);
  }

  /** On letters caps lock does what shift does, control types the control character, and the left alt key sets the high bit. */
  lemma LetterKeys(m: Mode, code: nat)
    requires Bare(m) && code < 0x3a && IsLower(Layout(0)[code])
    ensures ChrBytes(m.(led := m.led.(capsLock := true)), code) == ChrBytes(m.(key := m.key.(lShift := true)), code)
    ensures ChrBytes(m.(key := m.key.(lCtrl := true)), code) == [Layout(0)[code] - 96]
    ensures ChrBytes(m.(key := m.key.(rCtrl := true)), code) == [Layout(0)[code] - 96]
    ensures ChrBytes(m.(key := m.key.(lAlt := true)), code) == [Layout(0)[code] + 128]
  {
    hide Layout;
    ShiftIsCapital(code);
  }

  /** Caps lock concerns letters only. */
  lemma CapsLeavesOthers(m: Mode, code: nat)
    requires Bare(m) && code < 0x3a && !IsLower(Layout(0)[code])
    ensures ChrBytes(m.(led := m.led.(capsLock := true)), code) == ChrBytes(m, code)
  {
    hide Layout;
  }

  /** With control and shift, the column from @ to _ types the control characters, the question mark types delete, and the rest is unchanged. */
  lemma ControlKeys(m: Mode, code: nat)
    requires Bare(m) && code < 0x3a && Layout(1)[code] != 0
    ensures var c, b := Layout(1)[code], ChrBytes(m.(key := m.key.(lCtrl := true, rShift := true)), code);
            b == if 0x40 <= c <= 0x5f then [c - 0x40] else if c == 0x3f then [0x7f] else [c]
  {
    hide Layout;
  }

  /** The left alt key sets the high bit of whatever the key types. */
  lemma AltSetsHighBit(m: Mode, code: nat)
    requires !m.key.lAlt && code < 0x3a
    ensures var a, b := ChrBytes(m, code), ChrBytes(m.(key := m.key.(lAlt := true)), code);
            |a| == |b| <= 1 && (|a| == 1 ==> a[0] < 0x80 && b[0] == a[0] + 0x80)
  {
    hide Layout;
  }

  /** The function keys are lettered in order, and the slash of the keypad types itself. */
  lemma FunctionKeys(m: Mode, k: nat)
    requires k < 10
    ensures Encoding(m, 0x3b + k) == [ESC] + Codes("[[") + Codes("ABCDEFGHIJ")[k..k + 1]
    ensures Encoding(m.(esc := 0xe0), 0x35) == Codes("/")
  {
    hide Layout, PadLayout, ChrBytes, KeypadBytes;
  }

  /** Shift, or the prefix of the separate cursor keys, makes the keypad do what it does without num lock; its star types only with num lock. */
  lemma KeypadModes(m: Mode, k: nat)
    requires Bare(m) && k < 13
    ensures KeypadBytes(m.(key := m.key.(lShift := true)), 0x47 + k) == KeypadBytes(m.(led := m.led.(numLock := false)), 0x47 + k)
    ensures KeypadBytes(m.(esc := 0xe0), 0x47 + k) == KeypadBytes(m.(led := m.led.(numLock := false)), 0x47 + k)
    ensures m.esc == 0 ==> KeypadBytes(m, 0x37) == if m.led.numLock then Codes("*") else []
  {
    hide PadLayout;
  }

  /** Keys of the keypad with num lock type their digits. */
  lemma KeypadDigits(m: Mode, k: nat)
    requires Bare(m) && m.led.numLock && m.esc == 0 && k < 13
    ensures KeypadBytes(m, 0x47 + k) == Codes("789-456+1230.")[k..k + 1]
  {}

  /** Without it, the arrows type ESC [ and a letter, home too, and the others ESC [, a digit and a tilde. */
  lemma KeypadArrows(m: Mode)
    requires Bare(m) && !m.led.numLock
    ensures KeypadBytes(m, 0x48) == [ESC] + Codes("[A") && KeypadBytes(m, 0x50) == [ESC] + Codes("[B")
    ensures KeypadBytes(m, 0x4d) == [ESC] + Codes("[C") && KeypadBytes(m, 0x4b) == [ESC] + Codes("[D")
    ensures KeypadBytes(m, 0x47) == [ESC] + Codes("[H") && KeypadBytes(m, 0x4f) == [ESC] + Codes("[4~")
    ensures KeypadBytes(m, 0x49) == [ESC] + Codes("[5~") && KeypadBytes(m, 0x51) == [ESC] + Codes("[6~")
    ensures KeypadBytes(m, 0x52) == [ESC] + Codes("[2~") && KeypadBytes(m, 0x53) == [0x7f]
  {}

  // ---- modifiers ----

  function Modes(m: Mode, cs: Bytes): Mode
    requires forall i :: 0 <= i < |cs| ==> cs[i] < 0x100
    decreases |cs|
  {
    if cs == [] then m else Modes(NextMode(m, cs[0]), cs[1..])
  }

  /** Whether the key was down last: what the press and release codes among cs say, or else as before. */
  function DownLast(cs: Bytes, key: nat, before: bool): bool
    decreases |cs|
  {
    if cs == [] then before else DownLast(cs[1..], key, if cs[0] == key then true else if cs[0] == key + 0x80 then false else before)
  }

  /** The shift state is that of the last press or release, whatever else is typed. */
  lemma {:induction false} ShiftTracksKeys(m: Mode, cs: Bytes)
    requires forall i :: 0 <= i < |cs| ==> cs[i] < 0x100
    ensures Modes(m, cs).key.lShift == DownLast(cs, 0x2a, m.key.lShift)
    ensures Modes(m, cs).key.rShift == DownLast(cs, 0x36, m.key.rShift)
    decreases |cs|
  {
    if cs != [] {
      ShiftTracksKeys(NextMode(m, cs[0]), cs[1..]);
    }
  }

  /** The prefix tells the right control and alt keys from the left ones, for press and release; nothing else changes. */
  lemma PrefixMeansRight(m: Mode, down: bool)
    ensures var c := 0x1d + if down then 0 else 0x80;
            && NextMode(m.(esc := 0), c) == m.(esc := 0, key := m.key.(lCtrl := down))
            && NextMode(NextMode(m, 0xe0), c) == m.(esc := 0, key := m.key.(rCtrl := down))
    ensures var c := 0x38 + if down then 0 else 0x80;
            && NextMode(m.(esc := 0), c) == m.(esc := 0, key := m.key.(lAlt := down))
            && NextMode(NextMode(m, 0xe0), c) == m.(esc := 0, key := m.key.(rAlt := down))
  {}

  /** A lock key switches when it is pressed, not when it is released; scroll lock switches num lock. */
  lemma LocksToggle(m: Mode)
    ensures NextMode(NextMode(m, 0x3a), 0xba) == m.(esc := 0, led := m.led.(capsLock := !m.led.capsLock))
    ensures NextMode(NextMode(m, 0x45), 0xc5) == m.(esc := 0, led := m.led.(numLock := !m.led.numLock))
    ensures NextMode(NextMode(m, 0x46), 0xc6) == NextMode(NextMode(m, 0x45), 0xc5)
  {}

  /** A key that types leaves the modifiers and locks alone. */
  lemma TypingKeepsMode(m: Mode, code: nat)
    requires code < 0x100 && Encoding(m, code) != []
    ensures NextMode(m, code) == m.(esc := 0)
  {
    hide Layout, PadLayout;
  }

  // ---- runs ----

  /** What the scan codes and the reader do, one after the other; a reader that is asleep does nothing. */
  datatype Event = Scan(code: nat) | ReadByte

  /** Outside getchar, asleep in it, or woken in it. */
  datatype Reader = Away | Asleep | Woken

  /** The mode, the bytes waiting, the bytes that have been read, and where the reader is. */
  datatype State = State(mode: Mode, queue: Bytes, out: Bytes, reader: Reader)

  /** The two codes that only announce another one. */
  predicate Prefix(code: nat) {
    code == 0xe0 || code == 0xe1
  }

  /** The bytes of a key that is accepted: all of them, or none if they do not all fit. */
  function Accepted(s: State, e: Event): Bytes
    requires e.Scan? ==> e.code < 0x100
  {
    if e.ReadByte? || |s.queue| + |Encoding(s.mode, e.code)| > BUFFER_SIZE then [] else Encoding(s.mode, e.code)
  }

  function Next(s: State, e: Event): State
    requires e.Scan? ==> e.code < 0x100
  {
    match e
    case Scan(code) =>
      State(NextMode(s.mode, code), s.queue + Accepted(s, e), s.out, if s.reader == Asleep && !Prefix(code) then Woken else s.reader)
    case ReadByte =>
      if s.reader == Asleep then s
      else if s.queue == [] then s.(reader := Asleep)
      else s.(queue := s.queue[1..], out := s.out + [s.queue[0]], reader := Away)
  }

  /** A reader that sleeps has nothing to read. */
  predicate NothingMissed(s: State) {
    s.reader == Asleep ==> s.queue == []
  }

  lemma NextMissesNothing(s: State, e: Event)
    requires NothingMissed(s) && (e.Scan? ==> e.code < 0x100)
    ensures NothingMissed(Next(s, e))
  {
    hide Layout, PadLayout;
  }

  predicate ScanCodes(es: seq<Event>) {
    forall i :: 0 <= i < |es| && es[i].Scan? ==> es[i].code < 0x100
  }

  function Run(s: State, es: seq<Event>): State
    requires ScanCodes(es)
    decreases |es|
  {
    if es == [] then s else Run(Next(s, es[0]), es[1..])
  }

  /** The encodings of the keys that a run accepts, in order. */
  function Keystrokes(s: State, es: seq<Event>): (ks: seq<Bytes>)
    requires ScanCodes(es)
    decreases |es|
  {
    if es == [] then []
    else (if Accepted(s, es[0]) == [] then [] else [Accepted(s, es[0])]) + Keystrokes(Next(s, es[0]), es[1..])
  }

  function Concat(ks: seq<Bytes>): Bytes {
    if ks == [] then [] else ks[0] + Concat(ks[1..])
  }

  lemma NextConserves(s: State, e: Event)
    requires e.Scan? ==> e.code < 0x100
    ensures Next(s, e).out + Next(s, e).queue == s.out + s.queue + Accepted(s, e)
    ensures |s.queue| <= BUFFER_SIZE ==> |Next(s, e).queue| <= BUFFER_SIZE
  {
    hide Encoding;
    if e.ReadByte? && s.queue != [] {
      assert s.queue == [s.queue[0]] + s.queue[1..];
    }
  }

  lemma AcceptedComplete(s: State, e: Event)
    requires e.Scan? ==> e.code < 0x100
    ensures Accepted(s, e) == [] || Complete(Accepted(s, e))
  {
    hide Encoding, Complete;
    if e.Scan? { EncodingComplete(s.mode, e.code); }
  }

  /**
   The bytes read and the bytes waiting are always the complete encodings of the accepted keys, in
   order, and no reader sleeps on while there are bytes for it.
   */
  lemma {:induction false} RunConserves(s: State, es: seq<Event>)
    requires ScanCodes(es)
    ensures var r := Run(s, es);
            && r.out + r.queue == s.out + s.queue + Concat(Keystrokes(s, es))
            && (|s.queue| <= BUFFER_SIZE ==> |r.queue| <= BUFFER_SIZE)
            && (NothingMissed(s) ==> NothingMissed(r))
            && (forall i :: 0 <= i < |Keystrokes(s, es)| ==> Complete(Keystrokes(s, es)[i]))
    decreases |es|
  {
    hide Next, Encoding, Complete, Accepted, NothingMissed;
    if es == [] {
      assert s.out + s.queue + [] == s.out + s.queue;
    } else {
      var s1, k := Next(s, es[0]), Accepted(s, es[0]);
      NextConserves(s, es[0]);
      if NothingMissed(s) { NextMissesNothing(s, es[0]); }
      RunConserves(s1, es[1..]);
      AcceptedComplete(s, es[0]);
      var ks := Keystrokes(s1, es[1..]);
      if k == [] {
        assert [] + ks == ks;
        assert s.out + s.queue + [] == s.out + s.queue;
      } else {
        assert ([k] + ks)[1..] == ks;
        assert s.out + s.queue + k + Concat(ks) == s.out + s.queue + (k + Concat(ks));
      }
    }
  }

  // ---- the code ----

  class Driver {
    var key: Keys
    var led: Led
    var esc: nat
    const cb: CircularBuffer
    var waiter: Option<nat>

    ghost predicate Valid()
      reads this, cb
    {
      cb.Valid() && cb.buffer.Length == BUFFER_SIZE
    }

    ghost function ModeNow(): Mode
      reads this
    {
      Mode(key, led, esc)
    }

    /** The driver as a state of a run, once out has been read from it; a waiter is awake or not. */
    ghost function StateNow(out: Bytes, awake: bool): State
      requires Valid()
      reads this, cb, cb.buffer
    {
      State(ModeNow(), cb.Contents(), out, if waiter == None then Away else if awake then Woken else Asleep)
    }

    /** The bytes waiting once those of one more key are accepted or refused as a whole. */
    ghost function Grown(queue: Bytes, b: Bytes): Bytes {
      if |queue| + |b| > BUFFER_SIZE then queue else queue + b
    }

    constructor ()
      ensures Valid() && fresh(cb) && fresh(cb.buffer) && cb.Contents() == [] && esc == 0 && waiter == None
      ensures key == Keys(false, false, false, false, false, false) && led == Led(false, false)
    {
      key := Keys(false, false, false, false, false, false);
      led := Led(false, false);
      esc := 0;
      waiter := None;
      cb := new CircularBuffer(BUFFER_SIZE);
    }

    method Chr(scan: nat)
      requires Valid() && scan < 0x100 && scan % 0x80 < 0x3a
      modifies cb, cb.buffer
      ensures Valid() && cb.Contents() == Grown(old(cb.Contents()), ChrBytes(ModeNow(), scan))
    {
      hide Layout;
      if scan < 0x80 {
        var i := 2;
        if !key.rAlt {
          i := if key.lShift || key.rShift then 1 else 0;
        }
        var code := Layout(i)[scan];
        if code != 0 {
          if i != 1 && (led.capsLock || key.lCtrl || key.rCtrl) && IsLower(code) {
            code := code - 32;
          }
          if key.lCtrl || key.rCtrl {
            if 0x40 <= code < 0x60 {
              code := code - 0x40;
            } else if code == 0x3f {
              code := 0x7f;
            }
          }
          if key.lAlt {
            code := SetHigh(code);
          }
          var n := cb.Write([code]);
        }
      }
    }

    /** The part of keypad after the test for a restart. */
    method Keypad(scan: nat)
      requires Valid() && scan < 0x100 && (scan % 0x80 == 0x37 || 0x47 <= scan % 0x80 <= 0x53)
      modifies cb, cb.buffer
      ensures Valid() && cb.Contents() == Grown(old(cb.Contents()), KeypadBytes(ModeNow(), scan))
    {
      hide PadLayout;
      if scan >= 0x80 || Reboots(Mode(key, led, esc), scan) {
        return;
      }
      if esc == 0xe0 || !led.numLock || key.lShift || key.rShift {
        if scan == 0x37 {
          return;
        }
        var code := PadLayout(0)[scan - 0x47];
        if code >= 0x80 {
          if cb.buffer.Length - cb.len >= 4 {
            WriteThree(ESC, BRACKET, code - 0x80);
            var n := cb.Write([TILDE]);
          }
        } else if IsUpper(code) {
          if cb.buffer.Length - cb.len >= 3 {
            WriteThree(ESC, BRACKET, code);
          }
        } else {
          var n := cb.Write([code]);
        }
      } else {
        var code := if scan == 0x37 then 42 else PadLayout(1)[scan - 0x47];
        var n := cb.Write([code]);
      }
    }

    /** Two bytes and then one more. */
    method WriteThree(a: nat, b: nat, c: nat)
      requires Valid() && cb.buffer.Length - cb.len >= 3
      modifies cb, cb.buffer
      ensures Valid() && cb.Contents() == old(cb.Contents()) + [a, b, c]
    {
      var n := cb.Write([a, b]);
      n := cb.Write([c]);
    }

    method Fn(scan: nat)
      requires Valid() && scan < 0x100 && 0x3b <= scan % 0x80 <= 0x44
      modifies cb, cb.buffer
      ensures Valid() && cb.Contents() == Grown(old(cb.Contents()), FnBytes(scan))
    {
      if scan < 0x80 && cb.buffer.Length - cb.len >= 4 {
        WriteThree(ESC, BRACKET, BRACKET);
        var n := cb.Write([scan - 0x3b + 65]);
      }
    }

    method ChrKeypad(scan: nat)
      requires Valid() && scan < 0x100 && scan % 0x80 == 0x35
      modifies cb, cb.buffer
      ensures Valid() && cb.Contents() == Grown(old(cb.Contents()), if esc == 0xe0 then [47] else ChrBytes(ModeNow(), scan))
    {
      if esc == 0xe0 {
        var n := cb.Write([47]);
      } else {
        Chr(scan);
      }
    }

    /** The handlers that only change the mode. */
    method Modifier(h: Handler, scan: nat)
      modifies this`key, this`led
      ensures var m, p := old(ModeNow()), Pressed(scan);
              && key == (match h
                         case Control => if m.esc != 0 then m.key.(rCtrl := p) else m.key.(lCtrl := p)
                         case LShift => m.key.(lShift := p)
                         case RShift => m.key.(rShift := p)
                         case Alt => if m.esc != 0 then m.key.(rAlt := p) else m.key.(lAlt := p)
                         case _ => m.key)
              && led == (if p && h.CapsLock? then m.led.(capsLock := !m.led.capsLock)
                         else if p && (h.NumLock? || h.ScrollLock?) then m.led.(numLock := !m.led.numLock)
                         else m.led)
    {
      var p := scan < 0x80;
      match h {
        case Control => if esc != 0 { key := key.(rCtrl := p); } else { key := key.(lCtrl := p); }
        case LShift => key := key.(lShift := p);
        case RShift => key := key.(rShift := p);
        case Alt => if esc != 0 { key := key.(rAlt := p); } else { key := key.(lAlt := p); }
        case CapsLock => if p { led := led.(capsLock := !led.capsLock); }
        case NumLock => if p { led := led.(numLock := !led.numLock); }
        case ScrollLock => if p { led := led.(numLock := !led.numLock); }
        case _ =>
      }
    }

    /**
     keyboard_handler: the mode moves on, the bytes of the key are taken as a whole or not at all, and
     every code but a prefix wakes the thread that waits.
     */
    method KeyboardHandler(scan: nat, ghost awake: bool) returns (woken: Option<nat>)
      requires Valid() && scan < 0x100
      modifies this`key, this`led, this`esc, cb, cb.buffer
      ensures Valid() && StateNow([], awake || woken.Some?) == Next(old(StateNow([], awake)), Scan(scan))
      ensures woken == None || woken == waiter
    {
      hide Encoding, NextMode;
      woken := None;
      if scan == 0xe0 || scan == 0xe1 {
        Prefixes(ModeNow(), scan);
        esc := scan;
      } else {
        Transcode(scan);
        esc := 0;
        if waiter.Some? {
          woken := waiter;
        }
      }
    }

    /** The call through the table of handlers, for a code that is no prefix. */
    method Transcode(scan: nat)
      requires Valid() && scan < 0x100 && !Prefix(scan)
      modifies this`key, this`led, cb, cb.buffer
      ensures Valid() && Mode(key, led, 0) == NextMode(old(ModeNow()), scan)
      ensures cb.Contents() == Grown(old(cb.Contents()), Encoding(old(ModeNow()), scan))
    {
      hide ChrBytes, KeypadBytes, FnBytes;
      var bare := scan % 0x80;
      if bare < 0x55 {
        match HandlerOf(bare) {
          case Chr => Chr(scan);
          case Keypad => Keypad(scan);
          case Fn => Fn(scan);
          case ChrKeypad => ChrKeypad(scan);
          case h => Modifier(h, scan);
        }
      }
    }

    /** One pass of getchar's loop, after the caller has come back if it slept; no byte means that it goes to sleep. */
    method GetcharPass(me: nat, ghost awake: bool) returns (b: Bytes)
      requires Valid() && (waiter == None || (waiter == Some(me) && awake))
      modifies this`waiter, cb
      ensures Valid() && StateNow(b, false) == Next(old(StateNow([], awake)), ReadByte)
      ensures b == [] <==> waiter == Some(me)
    {
      waiter := None;
      b := cb.Read(1);
      if b == [] {
        waiter := Some(me);
      }
    }
  }
}
