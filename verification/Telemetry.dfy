/** internal/telemetry: the hand-written number formatting of docker.go and server.go. */
module Telemetry {
  import opened Sums

  const MIN64: int := -0x8000_0000_0000_0000
  const MAX64: int := 0x7fff_ffff_ffff_ffff
  const TWO64: int := 0x1_0000_0000_0000_0000

  // ---- decimal text and its reading ----

  function Digit(d: nat): (c: char)
    requires d < 10
    ensures '0' <= c <= '9'
  {
    '0' + d as char
  }

  /** The ten digits. */
  lemma DigitChars()
    ensures Digit(0) == '0' && Digit(1) == '1' && Digit(2) == '2' && Digit(3) == '3' && Digit(4) == '4'
    ensures Digit(5) == '5' && Digit(6) == '6' && Digit(7) == '7' && Digit(8) == '8' && Digit(9) == '9'
  {
  }

  function Value(c: char): nat
    requires '0' <= c <= '9'
  {
    (c - '0') as nat
  }

  /** The digits of n, most significant first; none for zero. */
  function Digits(n: nat): (s: string)
    ensures |s| == 0 <==> n == 0
    ensures forall i :: 0 <= i < |s| ==> '0' <= s[i] <= '9'
  {
    if n == 0 then "" else Digits(n / 10) + [Digit(n % 10)]
  }

  function Text(n: int): string {
    if n == 0 then "0" else if n > 0 then Digits(n) else "-" + Digits(-n)
  }

  predicate AllDigits(s: string) { forall i :: 0 <= i < |s| ==> '0' <= s[i] <= '9' }

  function Read(s: string): nat
    requires AllDigits(s)
    decreases |s|
  {
    if |s| == 0 then 0 else 10 * Read(s[..|s| - 1]) + Value(s[|s| - 1])
  }

  function Negated(n: int): Option<int> { Some(-n) }

  /** An optional minus sign and at least one digit. */
  function Parse(s: string): Option<int> {
    if |s| > 0 && AllDigits(s) then Some(Read(s))
    else if |s| > 1 && s[0] == '-' && AllDigits(s[1..]) then Negated(Read(s[1..]))
    else None
  }

  lemma {:induction false} ReadDigits(n: nat)
    ensures Read(Digits(n)) == n
  {
    if n > 0 {
      ReadDigits(n / 10);
      assert Digits(n)[..|Digits(n)| - 1] == Digits(n / 10);
    }
  }

  lemma {:induction false} FirstDigit(n: nat)
    requires n > 0
    ensures Digits(n)[0] != '0'
  {
    if n >= 10 {
      FirstDigit(n / 10);
      assert Digits(n)[0] == Digits(n / 10)[0];
    }
  }

  /** No leading zero, a minus sign only in front, and never "-0". */
  predicate Canonical(s: string) {
    || s == "0"
    || (|s| > 0 && AllDigits(s) && s[0] != '0')
    || (|s| > 1 && s[0] == '-' && AllDigits(s[1..]) && s[1] != '0')
  }

  lemma ParseDigits(n: nat)
    requires n > 0
    ensures Parse(Digits(n)) == Some(n) && Parse("-" + Digits(n)) == Negated(n)
    ensures Canonical(Digits(n)) && Canonical("-" + Digits(n))
  {
    ReadDigits(n);
    FirstDigit(n);
    ParseSigned(Digits(n));
  }

  lemma ParseSigned(digits: string)
    requires AllDigits(digits) && |digits| > 0 && digits[0] != '0'
    ensures Parse(digits) == Some(Read(digits)) && Parse("-" + digits) == Negated(Read(digits))
    ensures Canonical(digits) && Canonical("-" + digits)
  {
    var s := "-" + digits;
    assert s[1..] == digits && s[1] == digits[0];
    assert s[0] == '-' && !AllDigits(s);
  }

  lemma ReadZero()
    ensures Parse("0") == Some(0) && Canonical("0")
  {
    assert Read("0") == 10 * Read("0"[..0]) + Value('0');
  }

  /** Reading undoes writing, for every integer; the text is canonical and signed only when negative. */
  lemma ParseText(n: int)
    ensures Parse(Text(n)) == Some(n) && Canonical(Text(n))
    ensures Text(n)[0] == '-' <==> n < 0
  {
    if n > 0 {
      ParseDigits(n);
    } else if n < 0 {
      ParseDigits(-n);
      assert Text(n) == "-" + Digits(-n);
    } else {
      ReadZero();
    }
  }

  lemma LastDigit(q: nat, c: char)
    requires '0' <= c <= '9'
    ensures (10 * q + Value(c)) / 10 == q && (10 * q + Value(c)) % 10 == Value(c)
    ensures Digit(Value(c)) == c
  {
  }

  lemma ReadSnoc(s: string, c: char)
    requires AllDigits(s) && '0' <= c <= '9'
    ensures AllDigits(s + [c]) && Read(s + [c]) == 10 * Read(s) + Value(c)
  {
    assert (s + [c])[..|s|] == s;
  }

  lemma DigitsReadSnoc(s: string, c: char)
    requires AllDigits(s) && '0' <= c <= '9' && Digits(Read(s)) == s
    requires if |s| > 0 then Read(s) > 0 else c != '0'
    ensures AllDigits(s + [c]) && Digits(Read(s + [c])) == s + [c] && Read(s + [c]) > 0
  {
    ReadSnoc(s, c);
    DigitsSnoc(Read(s), c);
  }

  lemma {:induction false} DigitsRead(s: string)
    requires AllDigits(s) && (|s| > 0 ==> s[0] != '0')
    ensures Digits(Read(s)) == s
    ensures |s| > 0 ==> Read(s) > 0
    decreases |s|
  {
    if |s| > 0 {
      var front, c := s[..|s| - 1], s[|s| - 1];
      assert s == front + [c];
      DigitsRead(front);
      DigitsReadSnoc(front, c);
    }
  }

  /** One more digit on the right, unless the result would be a leading zero. */
  lemma DigitsSnoc(q: nat, c: char)
    requires '0' <= c <= '9' && (q > 0 || c != '0')
    ensures 10 * q + Value(c) > 0 && Digits(10 * q + Value(c)) == Digits(q) + [c]
  {
    LastDigit(q, c);
  }

  /** Writing undoes reading, for every canonical text. */
  lemma TextParse(s: string)
    requires Canonical(s)
    ensures Parse(s).Some? && Text(Parse(s).value) == s
  {
    if s != "0" {
      if AllDigits(s) {
        DigitsRead(s);
      } else {
        DigitsRead(s[1..]);
        assert s == "-" + s[1..];
      }
    }
  }

  // ---- intToStr ----

  /** Negation on int64: the minimum value is its own negation. */
  function Neg64(n: int): int { if n == MIN64 then MIN64 else -n }

  function Pow10(k: nat): nat { if k == 0 then 1 else 10 * Pow10(k - 1) }

  lemma Pow10Nineteen()
    ensures Pow10(19) == 10000000000000000000
  {
    assert Pow10(4) == 10000;
    assert Pow10(8) == 10000 * Pow10(4);
    assert Pow10(12) == 10000 * Pow10(8);
    assert Pow10(16) == 10000 * Pow10(12);
  }

  lemma OneDigitLess(m: nat, k: nat)
    requires 0 < m < Pow10(k)
    ensures k > 0 && m / 10 < Pow10(k - 1)
    ensures Digits(m) == Digits(m / 10) + [Digit(m % 10)]
  {
  }

  function Reversed(s: string): (r: string)
    ensures |r| == |s|
    ensures forall i :: 0 <= i < |s| ==> r[i] == s[|s| - 1 - i]
  {
    seq(|s|, i requires 0 <= i < |s| => s[|s| - 1 - i])
  }

  /** What the code returns: the minimum value loses its digits. */
  function IntText(n: int): string { if n == MIN64 then "-" else Text(n) }

  /** The digits of a positive number, least significant first; at most nineteen of them. */
  method WriteDigits(buf: array<char>, n: nat) returns (len: nat)
    requires buf.Length == 20 && n <= MAX64
    modifies buf
    ensures len <= 19 && Reversed(buf[..len]) == Digits(n)
  {
    len := 0;
    var m: nat := n;
    Pow10Nineteen();
    assert Reversed(buf[..0]) == "";
    while m > 0
      invariant len <= 19 && m < Pow10(19 - len)
      invariant Digits(n) == Digits(m) + Reversed(buf[..len])
    {
      ghost var before := Reversed(buf[..len]);
      OneDigitLess(m, 19 - len);
      buf[len] := Digit(m % 10);
      assert Reversed(buf[..len + 1]) == [Digit(m % 10)] + before;
      m := m / 10;
      len := len + 1;
    }
  }

  /** The two-index swap loop. */
  method ReverseInPlace(buf: array<char>, len: nat)
    requires len <= buf.Length
    modifies buf
    ensures buf[..len] == Reversed(old(buf[..len]))
  {
    ghost var was := buf[..len];
    var i, j := 0, len - 1;
    while i < j
      invariant 0 <= i <= j + 1 && j == len - 1 - i
      invariant forall k :: 0 <= k < i ==> buf[k] == was[len - 1 - k] && buf[len - 1 - k] == was[k]
      invariant forall k :: i <= k <= j ==> buf[k] == was[k]
    {
      buf[i], buf[j] := buf[j], buf[i];
      i, j := i + 1, j - 1;
    }
  }

  /** intToStr: digits into a buffer of capacity twenty, least significant first, then reversed in place. */
  method IntToStr(n: int) returns (s: string)
    requires MIN64 <= n <= MAX64
    ensures s == IntText(n)
  {
    if n == 0 {
      return "0";
    }
    var buf := new char[20];
    var neg := n < 0;
    var m := if neg then Neg64(n) else n;
    var len := WriteDigits(buf, if m > 0 then m else 0);
    ghost var digits := buf[..len];
    if neg {
      buf[len] := '-';
      len := len + 1;
      assert Reversed(buf[..len]) == "-" + Reversed(digits);
    }
    ReverseInPlace(buf, len);
    s := buf[..len];
  }

  /** intToStr can be read back exactly when its argument is not the minimum int64. */
  lemma IntTextReadsBackExactly(n: int)
    ensures Parse(IntText(n)) == Some(n) <==> n != MIN64
    ensures n == -9223372036854775808 ==> IntText(n) == "-"
  {
    ParseText(n);
  }

  /** Different numbers get different texts, the minimum value included. */
  lemma IntTextIsInjective(m: int, n: int)
    requires IntText(m) == IntText(n)
    ensures m == n
  {
    ParseText(m);
    ParseText(n);
  }

  // ---- formatBytes ----

  function Pow1024(k: nat): nat { if k == 0 then 1 else 1024 * Pow1024(k - 1) }

  const UNITS: string := "KMGTPE"

  /** "%d B", or b / div with one decimal and a unit letter. */
  datatype Formatted = Plain(b: nat) | Scaled(b: nat, div: nat, unit: char)

  function Mul64(a: nat, b: nat): nat { (a * b) % TWO64 }

  /** The unit that fits: the value lies between one and 1024 of it. */
  ghost predicate FitsUnit(b: nat, exp: nat, div: nat) {
    exp < |UNITS| && div == Pow1024(exp + 1) && div <= b < 1024 * div
  }

  lemma {:induction false} PowMonotone(i: nat, j: nat)
    requires i <= j
    ensures Pow1024(i) <= Pow1024(j)
    decreases j
  {
    if i < j { PowMonotone(i, j - 1); }
  }

  /** The six units in bytes. */
  lemma UnitSizes(b: nat, exp: nat, div: nat)
    requires FitsUnit(b, exp, div)
    ensures exp < 6 && div == [1024, 1048576, 1073741824, 1099511627776, 1125899906842624, 1152921504606846976][exp]
    ensures UNITS[exp] == ['K', 'M', 'G', 'T', 'P', 'E'][exp]
  {
    assert Pow1024(3) == 1024 * Pow1024(2) && Pow1024(2) == 1048576;
    assert Pow1024(6) == 1024 * Pow1024(5) && Pow1024(5) == 1024 * Pow1024(4) && Pow1024(4) == 1024 * Pow1024(3);
    assert exp == 0 || exp == 1 || exp == 2 || exp == 3 || exp == 4 || exp == 5;
  }

  /** At most one unit fits, so FitsUnit pins down what formatBytes must choose. */
  lemma UnitIsUnique(b: nat, e: nat, d: nat, e': nat, d': nat)
    requires FitsUnit(b, e, d) && FitsUnit(b, e', d')
    ensures e == e' && d == d'
  {
    if e < e' { PowMonotone(e + 2, e' + 1); }
    if e' < e { PowMonotone(e' + 2, e + 1); }
  }

  /** Integer division by 1024 of the quotient is division by 1024 times the divisor. */
  lemma ScaleOnce(b: nat, n: nat, div: nat)
    requires n * div <= b < (n + 1) * div && 1024 <= n
    ensures (n / 1024) * (1024 * div) <= b < (n / 1024 + 1) * (1024 * div)
    ensures 1024 * div <= b
  {
    var q := n / 1024;
    assert 1024 * q <= n < 1024 * (q + 1);
    MulLe(1024 * q, n, div);
    MulLe(n + 1, 1024 * (q + 1), div);
    MulLe(1024, n, div);
    assert (1024 * q) * div == q * (1024 * div);
    assert (1024 * (q + 1)) * div == (q + 1) * (1024 * div);
  }

  lemma MulLe(a: nat, b: nat, d: nat)
    requires a <= b
    ensures a * d <= b * d
  {
  }

  lemma Pow1024Six()
    ensures Pow1024(1) == 1024 && Pow1024(7) == 1180591620717411303424
  {
    assert Pow1024(3) == 1073741824;
    assert Pow1024(6) == 1073741824 * Pow1024(3);
  }

  /** formatBytes on uint64, with the multiplication it performs. */
  method FormatBytes(b: nat) returns (f: Formatted, ghost exp: nat)
    requires b < TWO64
    ensures b < 1024 ==> f == Plain(b)
    ensures b >= 1024 ==> f.Scaled? && f.b == b && FitsUnit(b, exp, f.div) && f.unit == UNITS[exp]
  {
    if b < 1024 {
      return Plain(b), 0;
    }
    var div, e := 1024, 0;
    var n := b / 1024;
    Pow1024Six();
    while n >= 1024
      invariant div == Pow1024(e + 1) && n * div <= b < (n + 1) * div
      invariant 1 <= n && div <= b
      decreases n
    {
      ScaleOnce(b, n, div);
      div := Mul64(div, 1024);
      e := e + 1;
      n := n / 1024;
    }
    MulLe(n + 1, 1024, div);
    if e >= 6 { PowMonotone(7, e + 1); }
    return Scaled(b, div, UNITS[e]), e;
  }

  // ---- readDiskUsage and DiskUsedFormatted ----

  datatype Disk = Disk(used: nat, total: nat)

  function ReadDisk(blocks: nat, available: nat, blockSize: nat): Disk {
    var total, avail := Mul64(blocks, blockSize), Mul64(available, blockSize);
    Disk(if total >= avail then total - avail else 0, total)
  }

  /** The subtraction on unsigned numbers in DiskUsedFormatted. */
  function FreeShown(d: Disk): nat { (d.total - d.used + TWO64) % TWO64 }

  /** It never wraps: what is shown as free is the available space, or all of it if that is less. */
  lemma FreeNeverWraps(blocks: nat, available: nat, blockSize: nat)
    ensures var d := ReadDisk(blocks, available, blockSize);
      var avail := Mul64(available, blockSize);
      && d.total == blocks * blockSize % 0x1_0000_0000_0000_0000
      && d.used == (if avail <= d.total then d.total - avail else 0)
      && d.used <= d.total && FreeShown(d) == (if avail <= d.total then avail else d.total)
  {
  }
}
