/** Numbers as text: the printing of lib/stdio.c and the parsing of lib/stdlib.c, on character codes. */
module NumberText {
  import opened Seqs

  type Text = seq<nat>

  const ULONG_MAX: nat := 0xffff_ffff
  const LONG_MAX: nat := 0x7fff_ffff
  const LONG_MIN: int := -0x8000_0000
  const WORD: nat := 0x1_0000_0000

  const ZERO: nat := 48
  const MINUS: nat := 45
  const PLUS: nat := 43
  const BLANK: nat := 32

  // ---- characters ----

  predicate IsSpace(c: nat) {
    c == 32 || 9 <= c <= 13
  }

  predicate IsDigit(c: nat) {
    48 <= c <= 57
  }

  predicate IsAlpha(c: nat) {
    65 <= c <= 90 || 97 <= c <= 122
  }

  function ToLower(c: nat): nat {
    if 65 <= c <= 90 then c + 32 else c
  }

  /** What a character counts for; 36 if it is neither a digit nor a letter. */
  function Worth(c: nat): (d: nat)
    ensures d <= 36
  {
    if IsDigit(c) then c - 48 else if IsAlpha(c) then ToLower(c) - 87 else 36
  }

  /** The character of a digit. */
  function Char(d: nat, upper: bool): (c: nat)
    requires d < 16
    ensures Worth(c) == d && !IsSpace(c) && c != MINUS && c != PLUS && ToLower(c) != 120 && c != 0
  {
    if d < 10 then 48 + d else if upper then 55 + d else 87 + d
  }

  // ---- numerals ----

  /** The number that a sequence of digits stands for. */
  function Val(ds: seq<nat>, base: nat): (v: nat)
    decreases |ds|
  {
    if ds == [] then 0 else Val(ds[..|ds| - 1], base) * base + ds[|ds| - 1]
  }

  function Digits(n: nat, base: nat): (ds: seq<nat>)
    requires base >= 2
    ensures |ds| >= 1
  {
    if n < base then [n] else Shrinks(n, base); Digits(n / base, base) + [n % base]
  }

  ghost predicate Below(ds: seq<nat>, base: nat) {
    forall i :: 0 <= i < |ds| ==> ds[i] < base
  }

  /** The digits of a number stand for it, with no zero in front. */
  lemma {:induction false} ValDigits(n: nat, base: nat)
    requires base >= 2
    ensures Val(Digits(n, base), base) == n && Below(Digits(n, base), base)
    ensures n > 0 ==> Digits(n, base)[0] > 0
    decreases n
  {
    if n >= base {
      Shrinks(n, base);
      ValDigits(n / base, base);
      ValSnoc(Digits(n / base, base), n % base, base);
      ModBelow(n, base);
    } else {
      ValSnoc([], n, base);
    }
  }

  lemma ModBelow(n: nat, base: nat)
    requires base >= 2
    ensures 0 <= n % base < base && n == n / base * base + n % base
  {}

  lemma ValSnoc(ds: seq<nat>, d: nat, base: nat)
    ensures Val(ds + [d], base) == Val(ds, base) * base + d
  {
    assert (ds + [d])[..|ds|] == ds;
  }

  lemma Shrinks(n: nat, base: nat)
    requires base >= 2 && n >= base
    ensures 0 < n / base < n
  {
    assert n == n / base * base + n % base;
  }

  function Pow(b: nat, k: nat): nat {
    if k == 0 then 1 else b * Pow(b, k - 1)
  }

  lemma QuotientBelow(n: nat, base: nat, b: nat, p: nat)
    requires base >= b > 0 && n < b * p
    ensures n / base < p
  {
    assert n == n / base * base + n % base;
    assert p * base >= p * b;
  }

  lemma {:induction false} FewDigits(n: nat, base: nat, b: nat, k: nat)
    requires base >= b >= 2 && k >= 1 && n < Pow(b, k)
    ensures |Digits(n, base)| <= k
    decreases k
  {
    if n >= base {
      QuotientBelow(n, base, b, Pow(b, k - 1));
      FewDigits(n / base, base, b, k - 1);
    }
  }

  /** The buffer of twelve bytes holds any 32-bit number in base 8 or more, and its sign in base 10 or more. */
  lemma FitsBuffer(n: nat, base: nat, neg: bool)
    requires n <= ULONG_MAX && base >= 8 && (neg ==> base >= 10)
    ensures |Digits(n, base)| + (if neg then 1 else 0) <= 11
  {
    if base >= 10 {
      assert Pow(10, 5) == 100000;
      PowSquare(10);
      FewDigits(n, base, 10, 10);
    } else {
      assert Pow(8, 5) == 32768;
      PowSquare(8);
      assert Pow(8, 11) == 8 * Pow(8, 10);
      FewDigits(n, base, 8, 11);
    }
  }

  lemma PowSquare(b: nat)
    ensures Pow(b, 10) == Pow(b, 5) * Pow(b, 5)
  {
    PowSum(b, 5, 5);
  }

  lemma {:induction false} PowSum(b: nat, j: nat, k: nat)
    ensures Pow(b, j + k) == Pow(b, j) * Pow(b, k)
    decreases j
  {
    if j > 0 {
      PowSum(b, j - 1, k);
      assert b * (Pow(b, j - 1) * Pow(b, k)) == b * Pow(b, j - 1) * Pow(b, k);
    }
  }

  function Chars(ds: seq<nat>, upper: bool): (s: Text)
    requires forall i :: 0 <= i < |ds| ==> ds[i] < 16
    ensures |s| == |ds| && forall i :: 0 <= i < |s| ==> s[i] == Char(ds[i], upper)
  {
    seq(|ds|, i requires 0 <= i < |ds| => Char(ds[i], upper))
  }

  /** A number as it is printed, without padding. */
  function Numeral(neg: bool, n: nat, base: nat, upper: bool): (s: Text)
    requires 2 <= base <= 16
  {
    ValDigits(n, base);
    (if neg then [MINUS] else []) + Chars(Digits(n, base), upper)
  }

  /** Hexadecimal digits are capitals exactly where they are asked for, and a numeral has nothing else but its sign. */
  lemma NumeralCase(neg: bool, n: nat, base: nat, upper: bool, i: nat)
    requires 2 <= base <= 16 && i < |Numeral(neg, n, base, upper)|
    ensures var c := Numeral(neg, n, base, upper)[i];
            if neg && i == 0 then c == MINUS else IsDigit(c) || (if upper then 65 <= c <= 70 else 97 <= c <= 102)
  {
    hide Char, Chars;
    ValDigits(n, base);
    var k := if neg then i - 1 else i;
    if !(neg && i == 0) { CharCase(Digits(n, base)[k], upper); }
  }

  lemma CharCase(d: nat, upper: bool)
    requires d < 16
    ensures var c := Char(d, upper); IsDigit(c) || (if upper then 65 <= c <= 70 else 97 <= c <= 102)
  {}

  lemma NumeralSolid(neg: bool, n: nat, base: nat, upper: bool)
    requires 2 <= base <= 16
    ensures forall i :: 0 <= i < |Numeral(neg, n, base, upper)| ==> Numeral(neg, n, base, upper)[i] != 0
  {
    ValDigits(n, base);
  }

  function Repeat(c: nat, k: nat): (s: Text)
    ensures |s| == k && forall i :: 0 <= i < k ==> s[i] == c
  {
    seq(k, _ => c)
  }

  /** Padding goes in front of everything, a sign included. */
  function Padded(s: Text, pad: nat, width: nat): Text {
    Repeat(pad, if |s| < width then width - |s| else 0) + s
  }

  /** A padded string is as long as the width asks for, or as the string if that is longer, and ends with the string. */
  lemma PaddedFits(s: Text, pad: nat, width: nat)
    ensures var r := Padded(s, pad, width);
            && |r| == (if |s| < width then width else |s|) && r[|r| - |s|..] == s && forall i :: 0 <= i < |r| - |s| ==> r[i] == pad
  {}

  /** print_str for a string that ends at a null byte in a buffer. */
  method PrintStr(buf: array<nat>, start: nat, pad: nat, width: nat) returns (out: Text, n: nat)
    requires start < buf.Length && buf[buf.Length - 1] == 0 && forall i :: start <= i < buf.Length - 1 ==> buf[i] != 0
    ensures out == Padded(buf[start..buf.Length - 1], pad, width) && n == |out|
  {
    n := 0;
    while buf[start + n] != 0
      invariant start + n < buf.Length
      decreases buf.Length - n
    {
      n := n + 1;
    }
    ghost var len := n;
    out := [];
    while n < width
      invariant len <= n && (n <= width || n == len)
      invariant out == Repeat(pad, n - len)
    {
      out := out + [pad];
      n := n + 1;
    }
    var ptr := start;
    ghost var padding := out;
    while buf[ptr] != 0
      invariant start <= ptr < buf.Length && out == padding + buf[start..ptr]
      decreases buf.Length - ptr
    {
      out := out + [buf[ptr]];
      ptr := ptr + 1;
    }
  }

  /** __print_number: the digits are written into a small buffer from its end. */
  method RawPrintNumber(pad: nat, width: nat, neg: bool, n: nat, base: nat, upper: bool) returns (out: Text, len: nat)
    requires n <= ULONG_MAX && 8 <= base <= 16 && (neg ==> base >= 10)
    ensures out == Padded(Numeral(neg, n, base, upper), pad, width) && len == |out|
  {
    hide Numeral, Padded;
    var buf := new nat[12];
    buf[11] := 0;
    var ptr := FillBuffer(buf, neg, n, base, upper);
    NumeralSolid(neg, n, base, upper);
    ghost var all := buf[ptr..11];
    assert forall i :: ptr <= i < 11 ==> buf[i] == all[i - ptr];
    out, len := PrintStr(buf, ptr, pad, width);
  }

  method FillBuffer(buf: array<nat>, neg: bool, n: nat, base: nat, upper: bool) returns (ptr: nat)
    requires buf.Length == 12 && n <= ULONG_MAX && 8 <= base <= 16 && (neg ==> base >= 10)
    modifies buf
    ensures ptr <= 11 && buf[11] == old(buf[11]) && buf[ptr..11] == Numeral(neg, n, base, upper)
  {
    hide Char, Chars;
    FitsBuffer(n, base, neg);
    ValDigits(n, base);
    ptr := WriteDigits(buf, n, base, upper);
    ghost var s := buf[ptr..11];
    if neg {
      ptr := ptr - 1;
      buf[ptr] := MINUS;
      assert buf[ptr..11] == [MINUS] + s;
    } else {
      assert s == [] + s;
    }
  }

  /** print_number: the magnitude of the least number is 2^31, as it is after the wrapped negation. */
  method PrintNumber(pad: nat, width: nat, n: int, base: nat) returns (out: Text, len: nat)
    requires LONG_MIN <= n <= LONG_MAX && 10 <= base <= 16
    ensures out == Padded(Numeral(n < 0, if n < 0 then -n else n, base, false), pad, width) && len == |out|
  {
    if n < 0 {
      out, len := RawPrintNumber(pad, width, true, -n, base, false);
    } else {
      out, len := RawPrintNumber(pad, width, false, n, base, false);
    }
  }

  /** The characters of m that are still to be written; a zero has none. */
  ghost function Leading(m: nat, base: nat, upper: bool): Text
    requires 2 <= base <= 16
  {
    if m == 0 then [] else ValDigits(m, base); Chars(Digits(m, base), upper)
  }

  lemma DigitsStep(m: nat, base: nat)
    requires 2 <= base
    ensures m % base < base
    ensures m < base ==> Digits(m, base) == [m] && m / base == 0 && m % base == m
    ensures m >= base ==> 0 < m / base < m && Digits(m, base) == Digits(m / base, base) + [m % base]
  {
    if m < base { SmallQuotient(m, base); } else { Shrinks(m, base); }
  }

  lemma SmallQuotient(m: nat, base: nat)
    requires m < base
    ensures m / base == 0 && m % base == m
  {}

  lemma CharsSnoc(ds: seq<nat>, d: nat, upper: bool)
    requires Below(ds + [d], 16) && Below(ds, 16) && d < 16
    ensures Chars(ds + [d], upper) == Chars(ds, upper) + [Char(d, upper)]
  {}

  lemma LeadingStep(m: nat, base: nat, upper: bool)
    requires 2 <= base <= 16 && m > 0
    ensures m % base < 16 && m / base < m
    ensures Leading(m, base, upper) == Leading(m / base, base, upper) + [Char(m % base, upper)]
  {
    hide Char, Chars;
    ValDigits(m, base);
    DigitsStep(m, base);
    if m < base {
      CharsSnoc([], m, upper);
      assert [] + [m] == [m];
      assert Chars([], upper) == [];
    } else {
      ValDigits(m / base, base);
      CharsSnoc(Digits(m / base, base), m % base, upper);
    }
  }

  lemma LeadingAll(n: nat, base: nat, upper: bool)
    requires 2 <= base <= 16 && Below(Digits(n, base), base)
    ensures if n > 0 then Leading(n, base, upper) == Chars(Digits(n, base), upper) else Chars(Digits(n, base), upper) == [48]
    ensures Leading(0, base, upper) == []
  {}

  method WriteDigits(buf: array<nat>, n: nat, base: nat, upper: bool) returns (ptr: nat)
    requires buf.Length == 12 && 2 <= base <= 16 && |Digits(n, base)| <= 11 && Below(Digits(n, base), base)
    modifies buf
    ensures ptr <= 11 && buf[11] == old(buf[11]) && buf[ptr..11] == Chars(Digits(n, base), upper)
  {
    hide Char, Chars, Leading;
    ghost var s := Chars(Digits(n, base), upper);
    ptr := 11;
    LeadingAll(n, base, upper);
    if n == 0 {
      ptr := ptr - 1;
      buf[ptr] := 48;
    } else {
      var m: nat := n;
      while m != 0
        invariant ptr <= 11 && buf[11] == old(buf[11]) && Leading(m, base, upper) + buf[ptr..11] == s
        decreases m
      {
        ghost var done := buf[ptr..11];
        ghost var rest := Leading(m / base, base, upper);
        LeadingStep(m, base, upper);
        assert |rest + [Char(m % base, upper)] + done| <= 11;
        ptr := ptr - 1;
        buf[ptr] := Char(m % base, upper);
        assert buf[ptr..11] == [buf[ptr]] + done;
        assert rest + [buf[ptr]] + done == rest + ([buf[ptr]] + done);
        m := m / base;
      }
    }
  }

  // ---- parsing ----

  /** The character at i, or the null byte behind the last one. */
  function At(s: Text, i: nat): nat {
    if i < |s| then s[i] else 0
  }

  /** The first place from i on that holds no white space. */
  function SkipSpace(s: Text, i: nat): (j: nat)
    requires i <= |s|
    ensures i <= j <= |s|
    decreases |s| - i
  {
    if i < |s| && IsSpace(s[i]) then SkipSpace(s, i + 1) else i
  }

  /** The digits of the base from i on, up to the first character that is none. */
  function Run(s: Text, i: nat, base: nat): (ds: seq<nat>)
    ensures i <= |s| ==> i + |ds| <= |s|
    ensures Below(ds, base)
    decreases |s| - i
  {
    if i < |s| && Worth(s[i]) < 36 && Worth(s[i]) < base then [Worth(s[i])] + Run(s, i + 1, base) else []
  }

  predicate HexPrefix(s: Text, i: nat) {
    At(s, i) == ZERO && ToLower(At(s, i + 1)) == 120
  }

  datatype Scanned = Invalid | Scanned(neg: bool, base: nat, digits: seq<nat>, end: nat)

  function Base(s: Text, i: nat, base: nat): nat {
    if base != 0 then base else if At(s, i) != ZERO then 10 else if HexPrefix(s, i) then 16 else 8
  }

  /** Where the digits of the number begin. */
  function DigitsAt(s: Text, base: nat): nat {
    var i := SkipSpace(s, 0);
    var j := if At(s, i) == MINUS || At(s, i) == PLUS then i + 1 else i;
    if Base(s, j, base) == 16 && HexPrefix(s, j) then j + 2 else j
  }

  /** The digits from k on; there must be one. */
  function Read(s: Text, neg: bool, base: nat, k: nat): Scanned {
    var ds := Run(s, k, base);
    if ds == [] then Invalid else Scanned(neg, base, ds, k + |ds|)
  }

  /** The number at the head of a string: white space, a sign, a prefix, digits. */
  function Scan(nptr: Option<Text>, base: int): Scanned {
    if nptr == None || (base < 2 && base != 0) || base > 36 then Invalid
    else
      var s := nptr.value;
      var i := SkipSpace(s, 0);
      var j := if At(s, i) == MINUS || At(s, i) == PLUS then i + 1 else i;
      Read(s, At(s, i) == MINUS, Base(s, j, base), DigitsAt(s, base))
  }

  /** No character of a C string is the null byte. */
  predicate CString(s: Text) {
    forall i :: 0 <= i < |s| ==> s[i] != 0
  }

  /** The overflow test is exact, and an overflow once seen stays one. */
  lemma OverflowStep(v: nat, val: nat, ovf: bool, c: nat, base: nat)
    requires 2 <= base <= 36 && c < base && val <= ULONG_MAX && (ovf <==> v > ULONG_MAX) && (!ovf ==> val == v)
    ensures var ovf' := ovf || val > (ULONG_MAX - c) / base;
            (ovf' <==> v * base + c > ULONG_MAX) && (!ovf' ==> val * base + c == v * base + c)
  {
    Fits(val, c, base);
    if ovf {
      Grows(v, base);
    }
  }

  lemma Grows(v: nat, base: nat)
    requires base >= 1
    ensures v * base >= v
  {}

  lemma Fits(val: nat, c: nat, base: nat)
    requires 2 <= base <= 36 && c < base
    ensures val > (ULONG_MAX - c) / base <==> val * base + c > ULONG_MAX
  {
    var q := (ULONG_MAX - c) / base;
    ModBelow(ULONG_MAX - c, base);
    if val > q {
      Times(q + 1, val, base);
    } else {
      Times(val, q, base);
    }
  }

  lemma Times(a: nat, b: nat, base: nat)
    requires a <= b
    ensures a * base <= b * base
  {}

  /** __strtoul */
  method RawStrtoul(nptr: Option<Text>, base: int) returns (val: nat, end: nat, neg: bool, inv: bool, ovf: bool)
    requires nptr.Some? ==> CString(nptr.value)
    ensures inv <==> Scan(nptr, base) == Invalid
    ensures var r := Scan(nptr, base);
            r.Scanned? ==> neg == r.neg && end == r.end && (ovf <==> Val(r.digits, r.base) > ULONG_MAX) && (!ovf ==> val == Val(r.digits, r.base))
  {
    val, end, neg, inv, ovf := 0, 0, false, false, false;
    if nptr == None || (base < 2 && base != 0) || base > 36 {
      inv := true;
      return;
    }
    var s := nptr.value;
    var i, b;
    i, b, neg, inv := Front(s, base);
    if inv {
      NothingThere(s, base);
      return;
    }
    var parsed: bool;
    val, i, parsed, ovf := Accumulate(s, i, b);
    if !parsed {
      inv := true;
      return;
    }
    end := i;
  }

  lemma NothingThere(s: Text, base: nat)
    requires CString(s) && At(s, SkipSpace(s, 0)) == 0
    ensures Scan(Some(s), base) == Invalid
  {
    assert SkipSpace(s, 0) == |s|;
  }

  /** What comes before the digits. */
  method Front(s: Text, base: nat) returns (i: nat, b: nat, neg: bool, inv: bool)
    requires CString(s) && (base == 0 || 2 <= base <= 36)
    ensures inv <==> At(s, SkipSpace(s, 0)) == 0
    ensures neg <==> At(s, SkipSpace(s, 0)) == MINUS
    ensures !inv ==> i == DigitsAt(s, base) <= |s| && 2 <= b <= 36
    ensures !inv ==> b == Base(s, if At(s, SkipSpace(s, 0)) == MINUS || At(s, SkipSpace(s, 0)) == PLUS then SkipSpace(s, 0) + 1 else SkipSpace(s, 0), base)
  {
    i, b, neg, inv := 0, base, false, false;
    while i < |s| && IsSpace(s[i])
      invariant 0 <= i <= |s| && SkipSpace(s, i) == SkipSpace(s, 0)
    {
      i := i + 1;
    }
    if At(s, i) == MINUS {
      neg := true;
      i := i + 1;
    } else if At(s, i) == PLUS {
      i := i + 1;
    } else if At(s, i) == 0 {
      inv := true;
      return;
    }
    if base == 0 {
      if At(s, i) == ZERO {
        if ToLower(At(s, i + 1)) == 120 { b := 16; } else { b := 8; }
      } else {
        b := 10;
      }
    }
    if b == 16 && At(s, i) == ZERO && ToLower(At(s, i + 1)) == 120 {
      i := i + 2;
    }
  }

  /** The accumulated word against the exact number. */
  ghost predicate Tracks(ds: seq<nat>, base: nat, val: nat, ovf: bool) {
    val <= ULONG_MAX && (ovf <==> Val(ds, base) > ULONG_MAX) && (!ovf ==> val == Val(ds, base))
  }

  lemma TracksStep(ds: seq<nat>, base: nat, val: nat, ovf: bool, c: nat)
    requires Tracks(ds, base, val, ovf) && 2 <= base <= 36 && c < base
    ensures Tracks(ds + [c], base, (val * base + c) % WORD, ovf || val > (ULONG_MAX - c) / base)
  {
    OverflowStep(Val(ds, base), val, ovf, c, base);
    ValSnoc(ds, c, base);
  }

  /** ds are the digits from start up to i. */
  ghost predicate Consumed(s: Text, start: nat, i: nat, base: nat, ds: seq<nat>) {
    i == start + |ds| && ds + Run(s, i, base) == Run(s, start, base)
  }

  lemma ConsumedStep(s: Text, start: nat, i: nat, base: nat, ds: seq<nat>)
    requires Consumed(s, start, i, base, ds) && i < |s| && base <= 36
    ensures if Worth(s[i]) < base then Consumed(s, start, i + 1, base, ds + [Worth(s[i])]) else ds == Run(s, start, base)
  {
    if Worth(s[i]) < base {
      assert Run(s, i, base) == [Worth(s[i])] + Run(s, i + 1, base);
      assert ds + ([Worth(s[i])] + Run(s, i + 1, base)) == ds + [Worth(s[i])] + Run(s, i + 1, base);
    } else {
      assert ds + [] == ds;
    }
  }

  lemma ConsumedAll(s: Text, start: nat, base: nat, ds: seq<nat>)
    requires Consumed(s, start, |s|, base, ds)
    ensures ds == Run(s, start, base)
  {
    assert ds + [] == ds;
  }

  /** The digit loop of __strtoul. */
  method Accumulate(s: Text, start: nat, base: nat) returns (val: nat, i: nat, parsed: bool, ovf: bool)
    requires 2 <= base <= 36 && start <= |s| && CString(s)
    ensures var ds := Run(s, start, base);
            && i == start + |ds| && (parsed <==> ds != [])
            && (ovf <==> Val(ds, base) > ULONG_MAX) && (!ovf ==> val == Val(ds, base))
  {
    hide Tracks, Consumed;
    val, i, parsed, ovf := 0, start, false, false;
    ghost var ds: seq<nat> := [];
    Nothing(s, start, base);
    while i < |s|
      invariant start <= i <= |s| && i == start + |ds| && Consumed(s, start, i, base, ds)
      invariant (parsed <==> ds != []) && Tracks(ds, base, val, ovf)
    {
      ConsumedStep(s, start, i, base, ds);
      var c := s[i];
      if IsDigit(c) {
        c := c - 48;
      } else if IsAlpha(c) {
        c := ToLower(c) - 87;
      } else {
        break;
      }
      if c >= base {
        break;
      }
      parsed := true;
      TracksStep(ds, base, val, ovf, c);
      if val > (ULONG_MAX - c) / base {
        ovf := true;
      }
      ds := ds + [Worth(s[i])];
      val := (val * base + c) % WORD;
      i := i + 1;
    }
    if i == |s| { ConsumedAll(s, start, base, ds); }
    TracksIs(ds, base, val, ovf);
  }

  lemma Nothing(s: Text, start: nat, base: nat)
    ensures Tracks([], base, 0, false) && Consumed(s, start, start, base, [])
  {
    assert [] + Run(s, start, base) == Run(s, start, base);
  }

  lemma TracksIs(ds: seq<nat>, base: nat, val: nat, ovf: bool)
    requires Tracks(ds, base, val, ovf)
    ensures (ovf <==> Val(ds, base) > ULONG_MAX) && (!ovf ==> val == Val(ds, base))
  {}

  datatype Errno = NoError | EINVAL | ERANGE

  /** The signed number that was read, at its full size. */
  function Exact(r: Scanned): int
    requires r.Scanned?
  {
    if r.neg then -(Val(r.digits, r.base) as int) else Val(r.digits, r.base)
  }

  /** strtol returns the exact number, or the nearest one and ERANGE when it does not fit. */
  method Strtol(nptr: Option<Text>, base: int, errno0: Errno) returns (v: int, end: nat, errno: Errno)
    requires nptr.Some? ==> CString(nptr.value)
    ensures var r := Scan(nptr, base);
            && (r == Invalid ==> v == 0 && end == 0 && errno == EINVAL)
            && (r.Scanned? ==>
                  && end == r.end
                  && (LONG_MIN <= Exact(r) <= LONG_MAX ==> v == Exact(r) && errno == errno0)
                  && (Exact(r) > LONG_MAX ==> v == LONG_MAX && errno == ERANGE)
                  && (Exact(r) < LONG_MIN ==> v == LONG_MIN && errno == ERANGE))
  {
    errno := errno0;
    var w, neg, inv, ovf;
    w, end, neg, inv, ovf := RawStrtoul(nptr, base);
    if inv {
      return 0, 0, EINVAL;
    }
    if !ovf {
      if neg {
        if w > LONG_MAX + 1 { ovf := true; }
      } else {
        if w > LONG_MAX { ovf := true; }
      }
    }
    if ovf {
      errno := ERANGE;
      v := if neg then LONG_MIN else LONG_MAX;
    } else {
      v := if neg then 0 - w else w;
    }
  }

  /** strtoul takes the negative of what it read modulo 2^32 after a minus sign. */
  method Strtoul(nptr: Option<Text>, base: int, errno0: Errno) returns (v: nat, end: nat, errno: Errno)
    requires nptr.Some? ==> CString(nptr.value)
    ensures var r := Scan(nptr, base);
            && (r == Invalid ==> v == 0 && end == 0 && errno == EINVAL)
            && (r.Scanned? ==>
                  && end == r.end
                  && (0 - ULONG_MAX <= Exact(r) <= ULONG_MAX ==> v == Exact(r) % WORD && errno == errno0)
                  && (!(0 - ULONG_MAX <= Exact(r) <= ULONG_MAX) ==> v == ULONG_MAX && errno == ERANGE))
  {
    errno := errno0;
    var w, neg, inv, ovf;
    w, end, neg, inv, ovf := RawStrtoul(nptr, base);
    if inv {
      return 0, 0, EINVAL;
    }
    if ovf {
      return ULONG_MAX, end, ERANGE;
    }
    v := if neg then (0 - w) % WORD else w;
  }

  // ---- there and back ----

  lemma {:induction false} SkipsBlanks(s: Text, i: nat, k: nat)
    requires i <= k < |s| && (forall j :: i <= j < k ==> IsSpace(s[j])) && !IsSpace(s[k])
    ensures SkipSpace(s, i) == k
    decreases k - i
  {
    if i < k {
      SkipsBlanks(s, i + 1, k);
    }
  }

  /** A run of digit characters up to a character that is none, or to the end, is read as those digits. */
  lemma {:induction false} RunChars(s: Text, i: nat, ds: seq<nat>, upper: bool, base: nat)
    requires 2 <= base <= 16 && Below(ds, base) && i + |ds| <= |s|
    requires forall k: nat :: k < |ds| ==> s[i + k] == Char(ds[k], upper)
    requires i + |ds| < |s| ==> Worth(s[i + |ds|]) == 36
    ensures Run(s, i, base) == ds
    decreases |ds|
  {
    hide Char, Worth;
    if ds != [] {
      assert s[i + 0] == Char(ds[0], upper);
      forall k: nat | k < |ds[1..]| ensures s[i + 1 + k] == Char(ds[1..][k], upper) {
        assert s[i + (k + 1)] == Char(ds[k + 1], upper);
      }
      RunChars(s, i + 1, ds[1..], upper, base);
      assert [ds[0]] + ds[1..] == ds;
    }
  }

  /** Where the digits of s begin, if a sign and a digit stand at i and i + 1, or a digit at i. */
  lemma ScanAt(s: Text, i: nat, neg: bool, ds: seq<nat>, upper: bool, base: nat)
    requires 2 <= base <= 16 && Below(ds, base) && ds != [] && i + (if neg then 1 else 0) + |ds| <= |s|
    requires forall j :: 0 <= j < i ==> IsSpace(s[j])
    requires neg ==> s[i] == MINUS
    requires var k := i + if neg then 1 else 0;
             s[k..k + |ds|] == Chars(ds, upper) && (k + |ds| < |s| ==> Worth(s[k + |ds|]) == 36)
    ensures Scan(Some(s), base) == Scanned(neg, base, ds, i + (if neg then 1 else 0) + |ds|)
  {
    var k := i + if neg then 1 else 0;
    assert s[k] == s[k..k + |ds|][0] == Char(ds[0], upper);
    SkipsBlanks(s, 0, i);
    if |ds| > 1 {
      assert s[k + 1] == s[k..k + |ds|][1] == Char(ds[1], upper);
    }
    assert ToLower(At(s, k + 1)) != 120;
    forall j: nat | j < |ds| ensures s[k + j] == Char(ds[j], upper) {
      assert s[k + j] == s[k..k + |ds|][j];
    }
    RunChars(s, k, ds, upper, base);
  }

  /** A printed number, in any padding of blanks, is read back as the number that was printed. */
  lemma PrintedIsRead(neg: bool, n: nat, base: nat, upper: bool, width: nat)
    requires 2 <= base <= 16
    ensures var s := Padded(Numeral(neg, n, base, upper), BLANK, width);
            var r := Scan(Some(s), base);
            r == Scanned(neg, base, Digits(n, base), |s|) && Exact(r) == if neg then -(n as int) else n
  {
    hide Scan, Char, Chars, Repeat, Numeral, Padded;
    ValDigits(n, base);
    var u := Numeral(neg, n, base, upper);
    var s := Padded(u, BLANK, width);
    NumeralIs(neg, n, base, upper);
    PaddedAt(u, BLANK, width, if neg then 1 else 0);
    ScanAt(s, |s| - |u|, neg, Digits(n, base), upper, base);
  }

  lemma NumeralIs(neg: bool, n: nat, base: nat, upper: bool)
    requires 2 <= base <= 16 && Below(Digits(n, base), base)
    ensures var u, k := Numeral(neg, n, base, upper), if neg then 1 else 0;
            |u| == k + |Digits(n, base)| && u[k..] == Chars(Digits(n, base), upper) && (neg ==> u[0] == MINUS)
  {
    hide Char, Chars;
  }

  lemma PaddedAt(u: Text, pad: nat, width: nat, k: nat)
    requires k <= |u|
    ensures var s := Padded(u, pad, width);
            && |s| >= |u| && (forall j :: 0 <= j < |s| - |u| ==> s[j] == pad) && (|u| > 0 ==> s[|s| - |u|] == u[0])
            && s[|s| - |u| + k..|s|] == u[k..]
  {
    hide Repeat;
    var s := Padded(u, pad, width);
    assert s[|s| - |u| + k..|s|] == u[k..];
  }

  function Zeros(k: nat): (ds: seq<nat>)
    ensures |ds| == k && forall i :: 0 <= i < k ==> ds[i] == 0
  {
    seq(k, _ => 0)
  }

  lemma {:induction false} ValZeros(k: nat, ds: seq<nat>, base: nat)
    ensures Val(Zeros(k) + ds, base) == Val(ds, base)
    decreases |ds|, k
  {
    var all := Zeros(k) + ds;
    if ds != [] {
      assert all[..|all| - 1] == Zeros(k) + ds[..|ds| - 1];
      ValZeros(k, ds[..|ds| - 1], base);
    } else if k > 0 {
      assert all[..|all| - 1] == Zeros(k - 1) + [];
      ValZeros(k - 1, [], base);
    }
  }

  lemma ZerosThenDigits(k: nat, ds: seq<nat>, upper: bool)
    requires Below(ds, 16)
    ensures Below(Zeros(k) + ds, 16) && Chars(Zeros(k) + ds, upper) == Repeat(ZERO, k) + Chars(ds, upper)
  {}

  /** What is read back from a number padded with zeros: a sign behind the zeros ends the number. */
  lemma ZeroPaddedIsRead(neg: bool, n: nat, base: nat, upper: bool, width: nat)
    requires 2 <= base <= 16
    ensures var u := Numeral(neg, n, base, upper);
            var r := Scan(Some(Padded(u, ZERO, width)), base);
            r.Scanned? && Exact(r) == if neg && |u| < width then 0 else if neg then -(n as int) else n
  {
    hide Scan, Char, Chars, Zeros, Numeral, Padded, Repeat;
    var u := Numeral(neg, n, base, upper);
    if neg && |u| < width {
      ZerosBeforeSign(n, base, upper, width);
    } else if neg {
      assert Padded(u, ZERO, width) == Padded(u, BLANK, width) by { NoPadding(u, width); }
      PrintedIsRead(neg, n, base, upper, width);
    } else {
      ZerosBeforeDigits(n, base, upper, width);
    }
  }

  lemma NoPadding(u: Text, width: nat)
    requires |u| >= width
    ensures Padded(u, ZERO, width) == Padded(u, BLANK, width)
  {
    assert Repeat(ZERO, 0) == Repeat(BLANK, 0);
  }

  lemma ZerosBeforeDigits(n: nat, base: nat, upper: bool, width: nat)
    requires 2 <= base <= 16
    ensures var r := Scan(Some(Padded(Numeral(false, n, base, upper), ZERO, width)), base); r.Scanned? && Exact(r) == n
  {
    hide Scan, Char, Chars, Zeros, Repeat;
    ValDigits(n, base);
    var u := Numeral(false, n, base, upper);
    var s := Padded(u, ZERO, width);
    var k := |s| - |u|;
    var ds := Zeros(k) + Digits(n, base);
    ZerosThenDigits(k, Digits(n, base), upper);
    assert s == Chars(ds, upper);
    assert s[0..|ds|] == s;
    ScanAt(s, 0, false, ds, upper, base);
    ValZeros(k, Digits(n, base), base);
  }

  lemma ZerosBeforeSign(n: nat, base: nat, upper: bool, width: nat)
    requires 2 <= base <= 16 && |Numeral(true, n, base, upper)| < width
    ensures var r := Scan(Some(Padded(Numeral(true, n, base, upper), ZERO, width)), base); r.Scanned? && Exact(r) == 0
  {
    hide Scan, Char, Chars, Zeros, Repeat;
    ValDigits(n, base);
    var u := Numeral(true, n, base, upper);
    var s := Padded(u, ZERO, width);
    var k := |s| - |u|;
    ZerosThenDigits(k, [], upper);
    assert Zeros(k) + [] == Zeros(k);
    assert Chars([], upper) == [];
    assert s[0..k] == Chars(Zeros(k), upper);
    assert s[k] == MINUS;
    ScanAt(s, 0, false, Zeros(k), upper, base);
    ValZeros(k, [], base);
  }

  /** Zero padding goes in front of the sign, so it survives exactly when there is none of one of them. */
  lemma ZeroPaddingSurvives(neg: bool, n: nat, base: nat, upper: bool, width: nat)
    requires 2 <= base <= 16
    ensures var u := Numeral(neg, n, base, upper);
            var r := Scan(Some(Padded(u, ZERO, width)), base);
            r.Scanned? && (Exact(r) == (if neg then -(n as int) else n) <==> !neg || n == 0 || |u| >= width)
  {
    hide Scan, Exact;
    ZeroPaddedIsRead(neg, n, base, upper, width);
  }

  /** Printing a signed number in decimal and parsing what was printed. */
  method SignedAndBack(n: int, width: nat) returns (v: int, errno: Errno)
    requires LONG_MIN <= n <= LONG_MAX
    ensures v == n && errno == NoError
  {
    hide Scan, Padded, Numeral, Exact;
    var out, len := PrintNumber(BLANK, width, n, 10);
    var m: nat := if n < 0 then -n else n;
    PrintedIsRead(n < 0, m, 10, false, width);
    PaddedSolid(n < 0, m, 10, false, width);
    var end;
    v, end, errno := Strtol(Some(out), 10, NoError);
  }

  /** Printing an unsigned number in octal, decimal or hexadecimal and parsing what was printed. */
  method UnsignedAndBack(n: nat, base: nat, upper: bool, width: nat) returns (v: nat, errno: Errno)
    requires n <= ULONG_MAX && (base == 8 || base == 10 || base == 16)
    ensures v == n && errno == NoError
  {
    hide Scan, Padded, Numeral, Exact;
    var out, len := RawPrintNumber(BLANK, width, false, n, base, upper);
    PrintedIsRead(false, n, base, upper, width);
    PaddedSolid(false, n, base, upper, width);
    var end;
    v, end, errno := Strtoul(Some(out), base, NoError);
  }

  lemma PaddedSolid(neg: bool, n: nat, base: nat, upper: bool, width: nat)
    requires 2 <= base <= 16
    ensures CString(Padded(Numeral(neg, n, base, upper), BLANK, width))
  {
    hide Numeral;
    NumeralSolid(neg, n, base, upper);
  }

  // ---- the standard ----

  /** A prefix that section 7.20.1.4 of C99 takes as one: a digit follows it. */
  predicate RealPrefix(s: Text, i: nat) {
    HexPrefix(s, i) && Worth(At(s, i + 2)) < 16
  }

  /** The number at the head of a string as C99 has it. */
  function StandardScan(s: Text, base: nat): Scanned
    requires base == 0 || 2 <= base <= 36
  {
    var i := SkipSpace(s, 0);
    var j := if At(s, i) == MINUS || At(s, i) == PLUS then i + 1 else i;
    var b := if base != 0 then base else if At(s, j) != ZERO then 10 else if RealPrefix(s, j) then 16 else 8;
    var k := if b == 16 && RealPrefix(s, j) then j + 2 else j;
    Read(s, At(s, i) == MINUS, b, k)
  }

  /** The parser keeps to the standard except for a hexadecimal prefix with no digit behind it, which it refuses. */
  lemma StandardUnlessBarePrefix(s: Text, base: nat)
    requires base == 0 || 2 <= base <= 36
    ensures var i := SkipSpace(s, 0);
            var j := if At(s, i) == MINUS || At(s, i) == PLUS then i + 1 else i;
            Scan(Some(s), base) == StandardScan(s, base) <==> !((base == 0 || base == 16) && HexPrefix(s, j) && !RealPrefix(s, j))
  {
    hide HexPrefix, RealPrefix, Worth, Read;
    var i := SkipSpace(s, 0);
    var j := if At(s, i) == MINUS || At(s, i) == PLUS then i + 1 else i;
    Prefixes(s, j);
  }

  lemma Prefixes(s: Text, j: nat)
    ensures RealPrefix(s, j) ==> HexPrefix(s, j)
    ensures HexPrefix(s, j) ==> At(s, j) == ZERO
    ensures HexPrefix(s, j) && !RealPrefix(s, j) ==>
              forall neg :: Read(s, neg, 16, j + 2) == Invalid && Read(s, neg, 8, j) != Invalid && Read(s, neg, 16, j) != Invalid
  {
    assert Worth(ZERO) == 0;
  }

  // ---- white space and signs ----

  /** A number found one place further on. */
  function Shifted(r: Scanned): Scanned {
    if r == Invalid then Invalid else r.(end := r.end + 1)
  }

  lemma {:induction false} RunShifts(c: nat, s: Text, i: nat, base: nat)
    ensures Run([c] + s, i + 1, base) == Run(s, i, base)
    decreases |s| - i
  {
    if i < |s| {
      assert ([c] + s)[i + 1] == s[i];
      RunShifts(c, s, i + 1, base);
    }
  }

  lemma {:induction false} SkipShifts(c: nat, s: Text, i: nat)
    requires i <= |s|
    ensures SkipSpace([c] + s, i + 1) == SkipSpace(s, i) + 1
    decreases |s| - i
  {
    if i < |s| {
      assert ([c] + s)[i + 1] == s[i];
      SkipShifts(c, s, i + 1);
    }
  }

  lemma AtShifts(c: nat, s: Text, i: nat)
    ensures At([c] + s, i + 1) == At(s, i)
  {}

  /** What is read at j after a sign at i. */
  function ReadAt(s: Text, neg: bool, j: nat, base: nat): Scanned {
    var b := Base(s, j, base);
    Read(s, neg, b, if b == 16 && HexPrefix(s, j) then j + 2 else j)
  }

  lemma ReadAtShifts(c: nat, s: Text, neg: bool, j: nat, base: nat)
    ensures ReadAt([c] + s, neg, j + 1, base) == Shifted(ReadAt(s, neg, j, base))
  {
    AtShifts(c, s, j);
    AtShifts(c, s, j + 1);
    var b := Base(s, j, base);
    RunShifts(c, s, j, b);
    RunShifts(c, s, j + 2, b);
  }

  lemma ScanIs(s: Text, base: nat)
    requires base == 0 || 2 <= base <= 36
    ensures var i := SkipSpace(s, 0);
            Scan(Some(s), base) == ReadAt(s, At(s, i) == MINUS, if At(s, i) == MINUS || At(s, i) == PLUS then i + 1 else i, base)
  {}

  /** White space in front of a number (space, tab, newline, vertical tab, form feed, return) does not matter. */
  lemma SpaceIsSkipped(c: nat, s: Text, base: nat)
    requires (c == 9 || c == 10 || c == 11 || c == 12 || c == 13 || c == 32) && (base == 0 || 2 <= base <= 36)
    ensures Scan(Some([c] + s), base) == Shifted(Scan(Some(s), base))
  {
    hide Scan, ReadAt;
    ScanIs(s, base);
    ScanIs([c] + s, base);
    SkipShifts(c, s, 0);
    var i := SkipSpace(s, 0);
    assert SkipSpace([c] + s, 0) == i + 1;
    AtShifts(c, s, i);
    var j := if At(s, i) == MINUS || At(s, i) == PLUS then i + 1 else i;
    ReadAtShifts(c, s, At(s, i) == MINUS, j, base);
  }

  /** A plus sign in front of a digit changes nothing, and a minus sign the sign. */
  lemma SignsMean(s: Text, base: nat)
    requires s != [] && IsDigit(s[0]) && (base == 0 || 2 <= base <= 36)
    ensures Scan(Some([PLUS] + s), base) == Shifted(Scan(Some(s), base))
    ensures var r := Scan(Some([MINUS] + s), base);
            if Scan(Some(s), base) == Invalid then r == Invalid else r == Shifted(Scan(Some(s), base)).(neg := true)
  {
    hide Scan, ReadAt;
    ScanIs(s, base);
    ScanIs([PLUS] + s, base);
    ScanIs([MINUS] + s, base);
    ReadAtShifts(PLUS, s, false, 0, base);
    ReadAtShifts(MINUS, s, true, 0, base);
    Negated(s, 0, base);
  }

  lemma Negated(s: Text, j: nat, base: nat)
    ensures var a, b := ReadAt(s, false, j, base), ReadAt(s, true, j, base);
            if a == Invalid then b == Invalid else b == a.(neg := true)
  {}
}
