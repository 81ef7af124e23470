/** Decimal text: what %d, %u and %ld print, and what %d reads back. */
module Decimal {
  import opened Wrappers

  predicate IsDigit(c: char) {
    '0' <= c <= '9'
  }

  predicate IsSpace(c: char) {
    c == ' ' || '\t' <= c <= '\r'
  }

  function DigitChar(d: nat): (c: char)
    requires d < 10
    ensures IsDigit(c) && DigitValue(c) == d
  {
    ('0' as int + d) as char
  }

  /** A non-negative number in decimal, without leading zeros. */
  function Dec(n: nat): (s: string)
    ensures s != "" && forall i | 0 <= i < |s| :: IsDigit(s[i])
  {
    if n < 10 then [DigitChar(n)] else Dec(n / 10) + [DigitChar(n % 10)]
  }

  function DigitValue(c: char): nat
    requires IsDigit(c)
  {
    c as int - '0' as int
  }

  /** The number that a run of digits denotes. */
  function Value(s: string): (n: nat)
    requires forall i | 0 <= i < |s| :: IsDigit(s[i])
  {
    if s == "" then 0 else 10 * Value(s[..|s| - 1]) + DigitValue(s[|s| - 1])
  }

  lemma {:induction false} ValueOfDec(n: nat)
    ensures Value(Dec(n)) == n
  {
    var s := Dec(n);
    if n < 10 {
      assert s[..|s| - 1] == "";
    } else {
      ValueOfDec(n / 10);
      assert s[..|s| - 1] == Dec(n / 10);
    }
  }

  /** Larger numbers are not shorter. */
  lemma {:induction false} DecMonotone(a: nat, b: nat)
    requires a <= b
    ensures |Dec(a)| <= |Dec(b)|
  {
    if a >= 10 {
      DecMonotone(a / 10, b / 10);
    }
  }

  function DigitRun(s: string): (n: nat)
    ensures n <= |s| && (n < |s| ==> !IsDigit(s[n]))
    ensures forall i | 0 <= i < n :: IsDigit(s[i])
  {
    if s == "" || !IsDigit(s[0]) then 0 else 1 + DigitRun(s[1..])
  }

  function SkipSpaces(s: string): (r: string)
    ensures |r| <= |s|
  {
    if s != "" && IsSpace(s[0]) then SkipSpaces(s[1..]) else s
  }

  datatype Scanned = Scanned(value: int, rest: string)

  /** The %d conversion: white space, an optional sign, and at least one digit. */
  function ScanInt(s: string): Option<Scanned> {
    var t := SkipSpaces(s);
    var signed := t != "" && (t[0] == '+' || t[0] == '-');
    var u := if signed then t[1..] else t;
    var n := DigitRun(u);
    if n == 0 then None
    else
      var v: int := Value(u[..n]);
      Some(Scanned(if signed && t[0] == '-' then -v else v, u[n..]))
  }

  /** Reading back a printed number, up to what follows it. */
  lemma ScanOfDec(n: nat, rest: string)
    requires rest == "" || !IsDigit(rest[0])
    ensures ScanInt(Dec(n) + rest) == Some(Scanned(n, rest))
  {
    var s := Dec(n) + rest;
    assert s[0] == Dec(n)[0];
    assert SkipSpaces(s) == s;
    var k := DigitRun(s);
    assert forall i | 0 <= i < |Dec(n)| :: s[i] == Dec(n)[i];
    assert rest != "" ==> s[|Dec(n)|] == rest[0];
    assert k == |Dec(n)|;
    assert s[..k] == Dec(n) && s[k..] == rest;
    ValueOfDec(n);
  }

  // ---------- What %d reads ----------

  predicate IsWhite(c: char) {
    c in " \t\n\U{B}\U{C}\r"
  }

  predicate White(s: string) {
    forall i | 0 <= i < |s| :: IsWhite(s[i])
  }

  lemma WhiteIsSpace(c: char)
    ensures IsWhite(c) <==> IsSpace(c)
  {
    assert IsWhite(c) <==> c == ' ' || c == '\t' || c == '\n' || c == '\U{B}' || c == '\U{C}' || c == '\r';
  }

  predicate Digits(s: string) {
    s != "" && forall i | 0 <= i < |s| :: IsDigit(s[i])
  }

  /** White space, a sign or none, and digits that `rest` does not continue; together they are `s` and denote `v`. */
  predicate Parts(s: string, white: string, sign: string, digits: string, rest: string, v: int) {
    && s == white + (sign + (digits + rest))
    && White(white) && (sign == "" || sign == "+" || sign == "-") && Digits(digits)
    && (rest == "" || !IsDigit(rest[0]))
    && v == (if sign == "-" then -1 else 1) * Value(digits)
  }

  /** `s` begins with a text for the number `v`, and `rest` follows. */
  ghost predicate Reads(s: string, v: int, rest: string) {
    exists white, sign, digits :: Parts(s, white, sign, digits, rest, v)
  }

  lemma {:induction false} SkipWhite(white: string, t: string)
    requires White(white) && (t == "" || !IsSpace(t[0]))
    ensures SkipSpaces(white + t) == t
  {
    if white == "" {
      assert white + t == t;
    } else {
      WhiteIsSpace(white[0]);
      assert (white + t)[1..] == white[1..] + t;
      SkipWhite(white[1..], t);
    }
  }

  lemma Regroup(a: string, b: string, c: string)
    ensures a + (b + c) == a + b + c
  {
  }

  lemma {:induction false} WhiteBefore(s: string) returns (white: string)
    ensures s == white + SkipSpaces(s) && White(white)
    ensures SkipSpaces(s) != "" ==> !IsSpace(SkipSpaces(s)[0])
  {
    if s != "" && IsSpace(s[0]) {
      WhiteIsSpace(s[0]);
      var w := WhiteBefore(s[1..]);
      white := [s[0]] + w;
      Regroup([s[0]], w, SkipSpaces(s));
      assert s == [s[0]] + s[1..];
    } else {
      white := "";
    }
  }

  lemma DigitsRun(digits: string, rest: string)
    requires Digits(digits) && (rest == "" || !IsDigit(rest[0]))
    ensures DigitRun(digits + rest) == |digits|
    ensures (digits + rest)[..|digits|] == digits && (digits + rest)[|digits|..] == rest
  {
    var u, k := digits + rest, DigitRun(digits + rest);
    assert forall i | 0 <= i < |digits| :: u[i] == digits[i];
    assert rest != "" ==> u[|digits|] == rest[0];
  }

  lemma ScanFinds(s: string, white: string, sign: string, digits: string, rest: string, v: int)
    requires Parts(s, white, sign, digits, rest, v)
    ensures ScanInt(s) == Some(Scanned(v, rest))
  {
    hide SkipSpaces, White, DigitRun, Value;
    var u := digits + rest;
    var t := sign + u;
    assert u[0] == digits[0];
    assert t[0] == if sign == "" then u[0] else sign[0];
    SkipWhite(white, t);
    assert (if sign == "" then t else t[1..]) == u;
    DigitsRun(digits, rest);
  }

  /** An optional sign and what follows it. */
  lemma SignCut(t: string) returns (sign: string, u: string)
    ensures t == sign + u && (sign == "" || sign == "+" || sign == "-")
    ensures if t != "" && (t[0] == '+' || t[0] == '-') then sign == [t[0]] && u == t[1..] else sign == "" && u == t
  {
    if t != "" && (t[0] == '+' || t[0] == '-') {
      sign, u := [t[0]], t[1..];
    } else {
      sign, u := "", t;
    }
  }

  lemma DigitsCut(u: string) returns (digits: string, rest: string)
    ensures u == digits + rest && digits == u[..DigitRun(u)] && rest == u[DigitRun(u)..]
    ensures (rest == "" || !IsDigit(rest[0])) && (DigitRun(u) > 0 ==> Digits(digits))
  {
    digits, rest := u[..DigitRun(u)], u[DigitRun(u)..];
  }

  /** What the scan takes from the text behind the white space. */
  lemma ScanTakes(s: string) returns (sign: string, digits: string)
    requires ScanInt(s).Some?
    ensures SkipSpaces(s) == sign + (digits + ScanInt(s).value.rest)
    ensures (sign == "" || sign == "+" || sign == "-") && Digits(digits)
    ensures var r := ScanInt(s).value;
            (r.rest == "" || !IsDigit(r.rest[0])) && r.value == (if sign == "-" then -1 else 1) * Value(digits)
  {
    hide SkipSpaces, Value, Digits, DigitRun;
    var u, rest;
    sign, u := SignCut(SkipSpaces(s));
    digits, rest := DigitsCut(u);
    assert ScanInt(s).value.rest == rest;
  }

  lemma ScanReads(s: string)
    requires ScanInt(s).Some?
    ensures Reads(s, ScanInt(s).value.value, ScanInt(s).value.rest)
  {
    hide ScanInt, SkipSpaces, White, Value, Digits;
    var white := WhiteBefore(s);
    var sign, digits := ScanTakes(s);
    assert Parts(s, white, sign, digits, ScanInt(s).value.rest, ScanInt(s).value.value);
  }

  /** %d: white space, an optional sign and the longest run of digits, and nothing else. */
  lemma ScanIntIff(s: string, v: int, rest: string)
    ensures ScanInt(s) == Some(Scanned(v, rest)) <==> Reads(s, v, rest)
  {
    hide ScanInt, Parts;
    if ScanInt(s) == Some(Scanned(v, rest)) {
      ScanReads(s);
    }
    if Reads(s, v, rest) {
      var white, sign, digits :| Parts(s, white, sign, digits, rest, v);
      ScanFinds(s, white, sign, digits, rest, v);
    }
  }

  /** Leading zeros do not count. */
  lemma {:induction false} LeadingZero(s: string)
    requires Digits(s)
    ensures Digits("0" + s) && Value("0" + s) == Value(s)
  {
    var t, k := "0" + s, |s|;
    assert t[..k] == "0" + s[..k - 1];
    if k > 1 {
      LeadingZero(s[..k - 1]);
    } else {
      assert t[..1] == "0" && "0"[..0] == "";
    }
  }
}
