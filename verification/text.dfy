/** Byte strings, as C++ `char` buffers and `std::string` hold them, with the searches and the
    number conversions the relay's parsers use. */
module Text {
  type Byte = c: char | c as int < 256
  type Bytes = seq<Byte>

  type Octet = n: int | 0 <= n < 256

  const CR: Byte := '\r'
  const LF: Byte := '\n'
  const CRLF: Bytes := [CR, LF]
  const HEADER_END: Bytes := [CR, LF, CR, LF]

  /** `pat` occurs in `s` at index `i`. */
  predicate At(s: Bytes, pat: Bytes, i: nat) {
    i + |pat| <= |s| && s[i..i + |pat|] == pat
  }

  /** Index of the first occurrence of `pat` at or after `from`, or -1. */
  function Find(s: Bytes, pat: Bytes, from: nat): (r: int)
    ensures -1 <= r
    ensures r >= 0 ==> from <= r && r + |pat| <= |s|
    decreases |s| - from
  {
    if from + |pat| > |s| then -1
    else if At(s, pat, from) then from
    else Find(s, pat, from + 1)
  }

  /** The result is an occurrence, and the first one; -1 says that there is none. */
  lemma {:induction false} FindSpec(s: Bytes, pat: Bytes, from: nat)
    ensures var r := Find(s, pat, from);
            && (r >= 0 ==> At(s, pat, r))
            && forall k: nat :: from <= k && At(s, pat, k) ==> 0 <= r <= k
    decreases |s| - from
  {
    if from + |pat| <= |s| && !At(s, pat, from) { FindSpec(s, pat, from + 1); }
  }

  /** No other function does what `FindSpec` says. */
  lemma FindIs(s: Bytes, pat: Bytes, from: nat, r: nat)
    requires from <= r && At(s, pat, r)
    requires forall k: nat :: from <= k < r ==> !At(s, pat, k)
    ensures Find(s, pat, from) == r
  {
    FindSpec(s, pat, from);
  }

  /** What is found stays found, at the same place, when bytes arrive behind. */
  lemma FindStable(s: Bytes, t: Bytes, pat: Bytes, from: nat)
    requires Find(s, pat, from) >= 0
    ensures Find(s + t, pat, from) == Find(s, pat, from)
  {
    FindSpec(s, pat, from);
    var r := Find(s, pat, from);
    assert (s + t)[r..r + |pat|] == s[r..r + |pat|];
    forall k: nat | from <= k < r ensures !At(s + t, pat, k) {
      if At(s + t, pat, k) {
        assert (s + t)[k..k + |pat|] == s[k..k + |pat|];
        assert At(s, pat, k);
      }
    }
    FindIs(s + t, pat, from, r);
  }

  /** Searching from `from` is searching the text that starts there. */
  lemma FindShift(s: Bytes, pat: Bytes, from: nat)
    requires from <= |s|
    ensures Find(s, pat, from) == (var r := Find(s[from..], pat, 0); if r < 0 then -1 else from + r)
  {
    var t := s[from..];
    forall k: nat ensures At(t, pat, k) == At(s, pat, from + k) {
      if k + |pat| <= |t| { assert t[k..k + |pat|] == s[from + k..from + k + |pat|]; }
    }
    FindSpec(s, pat, from);
    FindSpec(t, pat, 0);
    var r := Find(t, pat, 0);
    if r >= 0 {
      forall k: nat | from <= k < from + r ensures !At(s, pat, k) {
        assert At(t, pat, k - from) == At(s, pat, from + (k - from));
      }
      FindIs(s, pat, from, from + r);
    } else {
      forall k: nat | from <= k ensures !At(s, pat, k) {
        assert At(t, pat, k - from) == At(s, pat, from + (k - from));
      }
    }
  }

  /** What `At` says of the patterns the parsers look for. */
  lemma AtChar(s: Bytes, c: Byte, k: nat)
    ensures At(s, [c], k) <==> k < |s| && s[k] == c
  {
    if k < |s| { assert s[k..k + 1] == [s[k]]; }
  }

  lemma AtCrlf(s: Bytes, k: nat)
    ensures At(s, CRLF, k) <==> k + 1 < |s| && s[k] == CR && s[k + 1] == LF
  {
    if k + 1 < |s| { assert s[k..k + 2] == [s[k], s[k + 1]]; }
  }

  lemma AtHeaderEnd(s: Bytes, k: nat)
    ensures At(s, HEADER_END, k) <==> At(s, CRLF, k) && At(s, CRLF, k + 2)
  {
    AtCrlf(s, k);
    AtCrlf(s, k + 2);
    if k + 4 <= |s| { assert s[k..k + 4] == [s[k], s[k + 1], s[k + 2], s[k + 3]]; }
  }

  /** The text holds no line break. */
  predicate Clean(s: Bytes) {
    forall k :: 0 <= k < |s| - 1 ==> !(s[k] == CR && s[k + 1] == LF)
  }

  /** The text does not hold the character `c`. */
  predicate Lacks(s: Bytes, c: Byte) {
    forall k :: 0 <= k < |s| ==> s[k] != c
  }

  /** Up to the first line break a text is clean. */
  lemma CleanBefore(s: Bytes, n: nat)
    requires Find(s, CRLF, 0) == n
    ensures Clean(s[..n])
  {
    FindSpec(s, CRLF, 0);
    forall k | 0 <= k < n - 1 ensures !(s[k] == CR && s[k + 1] == LF) { AtCrlf(s, k); }
  }

  /** Up to the first `c` a text lacks `c`. */
  lemma LacksBefore(s: Bytes, c: Byte, from: nat, n: nat)
    requires Find(s, [c], from) == n
    ensures from <= n < |s| && s[n] == c && Lacks(s[from..n], c)
  {
    FindSpec(s, [c], from);
    AtChar(s, c, n);
    forall k | from <= k < n ensures s[k] != c { AtChar(s, c, k); }
  }

  lemma FindChar(s: Bytes, c: Byte, from: nat, n: nat)
    requires from <= n < |s| && s[n] == c && Lacks(s[from..n], c)
    ensures Find(s, [c], from) == n
  {
    AtChar(s, c, n);
    forall k: nat | from <= k < n ensures !At(s, [c], k) {
      AtChar(s, c, k);
      assert s[k] == s[from..n][k - from];
    }
    FindIs(s, [c], from, n);
  }

  /** A clean line is found up to the break behind it. */
  lemma FindLineEnd(line: Bytes, rest: Bytes)
    requires Clean(line)
    ensures Find(line + CRLF + rest, CRLF, 0) == |line|
  {
    var s := line + CRLF + rest;
    AtCrlf(s, |line|);
    forall k: nat | k < |line| ensures !At(s, CRLF, k) { AtCrlf(s, k); }
    FindIs(s, CRLF, 0, |line|);
  }

  // ---------- numbers ----------

  predicate IsDigit(c: Byte) { '0' <= c <= '9' }

  function DigitValue(c: Byte): nat
    requires IsDigit(c)
  {
    c as int - '0' as int
  }

  function DigitOf(d: nat): (c: Byte)
    requires d < 10
    ensures IsDigit(c) && DigitValue(c) == d
  {
    ('0' as int + d) as char
  }

  /** `std::to_string` of a non-negative number. */
  function Dec(n: nat): (s: Bytes)
    ensures |s| > 0 && forall k :: 0 <= k < |s| ==> IsDigit(s[k])
  {
    if n < 10 then [DigitOf(n)] else Dec(n / 10) + [DigitOf(n % 10)]
  }

  /** `std::ostream << int`. */
  function IntText(i: int): (s: Bytes)
    ensures |s| > 0 && forall k :: 0 <= k < |s| ==> IsDigit(s[k]) || s[k] == '-'
  {
    if i < 0 then "-" + Dec(-i) else Dec(i)
  }

  predicate IsSpace(c: Byte) { c == ' ' || '\t' as int <= c as int <= '\r' as int }

  /** The value of the digits at the front of `s`, appended to `acc`. */
  function LeadingDigits(s: Bytes, acc: nat): nat {
    if s == [] || !IsDigit(s[0]) then acc else LeadingDigits(s[1..], 10 * acc + DigitValue(s[0]))
  }

  /** `strtoll` without its range: leading white space, an optional sign, then digits. */
  function Number(s: Bytes): int {
    if s == [] then 0
    else if IsSpace(s[0]) then Number(s[1..])
    else if s[0] == '-' then 0 - LeadingDigits(s[1..], 0)
    else if s[0] == '+' then LeadingDigits(s[1..], 0)
    else LeadingDigits(s, 0)
  }

  const TWO_31 := 0x8000_0000
  const TWO_32 := 0x1_0000_0000
  const TWO_63 := 0x8000_0000_0000_0000
  const TWO_64 := 0x1_0000_0000_0000_0000

  /** `atoll`: `strtoll` saturates at the ends of the 64-bit range. */
  function Atoll(s: Bytes): (v: int)
    ensures -TWO_63 <= v < TWO_63
  {
    var v := Number(s);
    if v < -TWO_63 then -TWO_63 else if v >= TWO_63 then TWO_63 - 1 else v
  }

  /** `atoi`. The C standard leaves a value outside `int` undefined; this is what glibc and the
      BSD library do, and no law below depends on it. */
  function Atoi(s: Bytes): (v: int)
    ensures -TWO_31 <= v < TWO_31
  {
    (Atoll(s) + TWO_31) % TWO_32 - TWO_31
  }

  /** The digits printed for `n`, read behind `acc == 0`, give `n` back and leave the rest. */
  lemma {:induction false} DecReads(n: nat, rest: Bytes)
    ensures LeadingDigits(Dec(n) + rest, 0) == LeadingDigits(rest, n)
  {
    if n < 10 {
      assert (Dec(n) + rest)[1..] == rest;
    } else {
      var d := [DigitOf(n % 10)];
      assert Dec(n) + rest == Dec(n / 10) + (d + rest);
      DecReads(n / 10, d + rest);
      assert (d + rest)[1..] == rest;
    }
  }

  lemma NumberUnsigned(s: Bytes)
    requires s != [] && IsDigit(s[0])
    ensures Number(s) == LeadingDigits(s, 0)
    ensures Number(['-'] + s) == 0 - LeadingDigits(s, 0)
  {
    assert (['-'] + s)[1..] == s;
  }

  /** Printing a number and reading it back, up to a character that ends the number. */
  lemma DecNumber(n: nat, rest: Bytes)
    requires rest == [] || !IsDigit(rest[0])
    ensures Number(Dec(n) + rest) == n && Number(['-'] + (Dec(n) + rest)) == 0 - n
  {
    var s := Dec(n) + rest;
    assert s[0] == Dec(n)[0];
    NumberUnsigned(s);
    DecReads(n, rest);
  }

  lemma IntTextNumber(i: int, rest: Bytes)
    requires rest == [] || !IsDigit(rest[0])
    ensures Number(IntText(i) + rest) == i
  {
    var n := if i < 0 then -i else i;
    DecNumber(n, rest);
    assert ['-'] + Dec(n) + rest == ['-'] + (Dec(n) + rest);
  }
}
