/**
 The six-number text of an address and port: `port` reads it (control.c:54-87) and
 `pasv` prints it (control.c:130-144). RFC 959, sections 4.1.2 and 5.3.2.
 */
module HostPort {
  import opened Wrappers
  import opened CStrings
  import opened Decimal

  /** An IPv4 address and a port, as in a sockaddr_in. */
  datatype Endpoint = Endpoint(h1: int, h2: int, h3: int, h4: int, port: int)

  const NOWHERE := Endpoint(0, 0, 0, 0, 0)

  predicate Octet(n: int) {
    0 <= n <= 255
  }

  /** Four octets and a 16-bit port. */
  predicate WellFormed(e: Endpoint) {
    Octet(e.h1) && Octet(e.h2) && Octet(e.h3) && Octet(e.h4) && 0 <= e.port < 0x1_0000
  }

  // ---------- Reading ----------

  /** `n` numbers separated by commas: "%d,%d,...". */
  function ScanList(s: string, n: nat): Option<seq<int>>
    requires n > 0
    decreases n
  {
    match ScanInt(s)
    case None => None
    case Some(Scanned(v, rest)) =>
      if n == 1 then Some([v])
      else if rest == "" || rest[0] != ',' then None
      else
        match ScanList(rest[1..], n - 1)
        case None => None
        case Some(vs) => Some([v] + vs)
  }

  /** sscanf(line, "PORT %d,%d,%d,%d,%d,%d"), None when fewer than six numbers are converted. */
  function ScanSix(line: string): (r: Option<seq<int>>)
    ensures r.Some? ==> |r.value| == 6
  {
    if StartsAt(line, 0, "PORT") then
      ScanListLength(line[4..], 6);
      ScanList(line[4..], 6)
    else None
  }

  lemma {:induction false} ScanListLength(s: string, n: nat)
    requires n > 0
    ensures ScanList(s, n).Some? ==> |ScanList(s, n).value| == n
    decreases n
  {
    if n > 1 && ScanInt(s).Some? && ScanInt(s).value.rest != "" {
      ScanListLength(ScanInt(s).value.rest[1..], n - 1);
    }
  }

  /** The range check as it is written: each "+ 1" is added to the value that precedes it. */
  predicate RangeCheck(v: seq<int>)
    requires |v| == 6
  {
    && (v[0] >= 0 && v[0] <= 255) && (v[0] + 1 >= 0 && v[0] + 1 <= 255)
    && (v[0] + 2 >= 0 && v[0] + 2 <= 255) && (v[0] + 3 >= 0 && v[0] + 3 <= 255)
    && (v[4] >= 0 && v[4] <= 255) && (v[4] + 1 >= 0 && v[4] + 1 <= 255)
  }

  /** inet_pton on the printed address: zero bytes remain when it is not an address. */
  function Address(v: seq<int>): Endpoint
    requires |v| == 6
  {
    var port := (v[4] * 256 + v[5]) % 0x1_0000;
    if Octet(v[0]) && Octet(v[1]) && Octet(v[2]) && Octet(v[3])
    then Endpoint(v[0], v[1], v[2], v[3], port)
    else NOWHERE.(port := port)
  }

  /** What a PORT line sets the data address to, None where `port` returns -1. */
  function PortTarget(line: string): Option<Endpoint> {
    match ScanSix(line)
    case None => None
    case Some(v) => if RangeCheck(v) then Some(Address(v)) else None
  }

  /** Numbers separated by commas: each one is read as %d reads it, and is followed by a comma or is the last. */
  ghost predicate Lists(s: string, v: seq<int>)
    requires v != []
    decreases |v|
  {
    exists rest :: Reads(s, v[0], rest) && (|v| == 1 || (rest != "" && rest[0] == ',' && Lists(rest[1..], v[1..])))
  }

  /** The word PORT and six numbers. */
  ghost predicate PortLists(line: string, v: seq<int>) {
    |v| == 6 && |line| >= 4 && line[..4] == "PORT" && Lists(line[4..], v)
  }

  lemma {:induction false} ScanListIff(s: string, v: seq<int>)
    requires v != []
    ensures ScanList(s, |v|) == Some(v) <==> Lists(s, v)
    decreases |v|
  {
    hide ScanInt, Reads;
    if ScanList(s, |v|) == Some(v) {
      var Scanned(x, rest) := ScanInt(s).value;
      ScanIntIff(s, x, rest);
      if |v| > 1 {
        var vs := ScanList(rest[1..], |v| - 1).value;
        assert v == [x] + vs && v[1..] == vs;
        ScanListIff(rest[1..], v[1..]);
      }
    }
    if Lists(s, v) {
      var rest :| Reads(s, v[0], rest) && (|v| == 1 || (rest != "" && rest[0] == ',' && Lists(rest[1..], v[1..])));
      ScanIntIff(s, v[0], rest);
      if |v| == 1 {
        assert v == [v[0]];
      } else {
        ScanListIff(rest[1..], v[1..]);
        assert v == [v[0]] + v[1..];
      }
    }
  }

  /** sscanf converts all six numbers exactly when the line lists them. */
  lemma ScanSixIff(line: string, v: seq<int>)
    requires |v| == 6
    ensures ScanSix(line) == Some(v) <==> PortLists(line, v)
  {
    hide ScanList, Lists;
    ScanListIff(if |line| >= 4 then line[4..] else "", v);
    if StartsAt(line, 0, "PORT") {
      assert line[..4] == "PORT";
    }
    if |line| >= 4 && line[..4] == "PORT" {
      assert forall i | 0 <= i < 4 :: line[0 + i] == line[..4][i] == "PORT"[i];
    }
  }

  /**
   Exactly the lines that `port` accepts: those that list six numbers, of which only the first
   octet and the high byte of the port are checked at all, and held to 252 and 254.
   */
  lemma PortAcceptsIff(line: string)
    ensures PortTarget(line).Some? <==> exists v :: PortLists(line, v) && 0 <= v[0] <= 252 && 0 <= v[4] <= 254
    ensures PortTarget(line).Some? ==> WellFormed(PortTarget(line).value)
  {
    hide ScanSix, Lists;
    if PortTarget(line).Some? {
      ScanSixIff(line, ScanSix(line).value);
    }
    if v :| PortLists(line, v) && 0 <= v[0] <= 252 && 0 <= v[4] <= 254 {
      ScanSixIff(line, v);
    }
  }

  /** And what it stores: the listed address if it is one and 0.0.0.0 if not, and the port modulo 2^16. */
  lemma PortStores(line: string, v: seq<int>)
    requires PortLists(line, v) && 0 <= v[0] <= 252 && 0 <= v[4] <= 254
    ensures PortTarget(line).Some?
    ensures var e := PortTarget(line).value;
            && [e.h1, e.h2, e.h3, e.h4] == (if forall i | 1 <= i < 4 :: 0 <= v[i] <= 255 then v[..4] else [0, 0, 0, 0])
            && 0 <= e.port < 0x1_0000 && (e.port - (256 * v[4] + v[5])) % 0x1_0000 == 0
  {
    hide ScanSix, Lists;
    ScanSixIff(line, v);
    assert v[..4] == [v[0], v[1], v[2], v[3]];
    assert (forall i | 1 <= i < 4 :: 0 <= v[i] <= 255) <==> Octet(v[1]) && Octet(v[2]) && Octet(v[3]);
  }

  /** The six numbers denote an address and a port. */
  predicate Denotes(v: seq<int>, e: Endpoint)
    requires |v| == 6
  {
    WellFormed(e) && e == Endpoint(v[0], v[1], v[2], v[3], v[4] * 256 + v[5])
  }

  /**
   When the stored endpoint is the one that the line lists: for an accepted line, exactly when
   the three octets that are not checked are octets, and the two port numbers together are a
   16-bit number, which the second one alone need not be.
   */
  lemma PortStoresListedIff(line: string, v: seq<int>)
    requires PortLists(line, v) && PortTarget(line).Some?
    ensures Denotes(v, PortTarget(line).value) <==>
              Octet(v[1]) && Octet(v[2]) && Octet(v[3]) && 0 <= v[4] * 256 + v[5] < 0x1_0000
  {
    hide ScanSix, Lists;
    ScanSixIff(line, v);
  }

  // ---------- Printing ----------

  function Commas(s: string): (r: string)
    ensures |r| == |s|
    ensures forall i | 0 <= i < |s| :: r[i] == if s[i] == '.' then ',' else s[i]
  {
    seq(|s|, i requires 0 <= i < |s| => if s[i] == '.' then ',' else s[i])
  }

  /** inet_ntoa. */
  function Dotted(e: Endpoint): string
    requires WellFormed(e)
  {
    Dec(e.h1) + "." + Dec(e.h2) + "." + Dec(e.h3) + "." + Dec(e.h4)
  }

  /** The text between the parentheses of the 227 reply. */
  function Printed(e: Endpoint): string
    requires WellFormed(e)
  {
    Commas(Dotted(e)) + "," + Dec(e.port / 256) + "," + Dec(e.port % 256)
  }

  /** The loop of `pasv` that replaces the dots of the address in place. */
  method ReplaceDots(text: array<char>, ghost s: string)
    requires Holds(text[..], s)
    modifies text
    ensures Holds(text[..], Commas(s))
  {
    var temp := 0;
    while text[temp] != NUL
      invariant temp <= |s|
      invariant forall i | 0 <= i < temp :: text[i] == Commas(s)[i]
      invariant forall i | temp <= i < text.Length :: text[i] == old(text[i])
      decreases |s| - temp
    {
      if text[temp] == '.' {
        text[temp] := ',';
      }
      temp := temp + 1;
    }
  }

  lemma CommasOfDec(n: nat)
    ensures Commas(Dec(n)) == Dec(n)
  {
  }

  lemma CommasAppend(s: string, t: string)
    ensures Commas(s + t) == Commas(s) + Commas(t)
  {
  }

  /** The comma list of numbers, right-nested as the reader takes it apart. */
  function CommaList(v: seq<nat>): string
    requires v != []
  {
    if |v| == 1 then Dec(v[0]) else Dec(v[0]) + ("," + CommaList(v[1..]))
  }

  lemma {:induction false} ScanOfCommaList(v: seq<nat>)
    requires v != []
    ensures ScanList(CommaList(v), |v|) == Some(v)
  {
    hide ScanInt, Dec;
    if |v| == 1 {
      ScanOfDec(v[0], "");
      assert Dec(v[0]) + "" == Dec(v[0]) && [v[0]] == v;
    } else {
      var rest := "," + CommaList(v[1..]);
      ScanOfDec(v[0], rest);
      ScanOfCommaList(v[1..]);
      assert rest[1..] == CommaList(v[1..]);
      assert [v[0]] + v[1..] == v;
    }
  }

  /** A PORT line that lists six non-negative numbers converts to those numbers. */
  lemma ScanSixOf(v: seq<nat>)
    requires |v| == 6
    ensures ScanSix("PORT " + CommaList(v)) == Some(v)
  {
    hide Dec, ScanInt, ScanList;
    var text := CommaList(v);
    ScanOfCommaList(v);
    assert text != "" && IsDigit(text[0]) by { assert text[0] == Dec(v[0])[0]; }
    ScanListSpace(text);
    assert ("PORT " + text)[4..] == " " + text;
  }

  lemma ScanListSpace(s: string)
    requires s != "" && IsDigit(s[0])
    ensures ScanList(" " + s, 6) == ScanList(s, 6)
  {
    hide ScanInt;
    SkipOneSpace(s);
  }

  lemma SkipOneSpace(s: string)
    requires s != "" && IsDigit(s[0])
    ensures ScanInt(" " + s) == ScanInt(s)
  {
    assert (" " + s)[1..] == s;
    assert SkipSpaces(" " + s) == SkipSpaces(s);
  }

  function Six(e: Endpoint): seq<nat>
    requires WellFormed(e)
  {
    [e.h1, e.h2, e.h3, e.h4, e.port / 256, e.port % 256]
  }

  lemma DottedCommas(e: Endpoint)
    requires WellFormed(e)
    ensures Commas(Dotted(e)) == Dec(e.h1) + "," + Dec(e.h2) + "," + Dec(e.h3) + "," + Dec(e.h4)
  {
    var a, b, c := Dec(e.h1) + ".", Dec(e.h1) + "." + Dec(e.h2), Dec(e.h1) + "." + Dec(e.h2) + "." + Dec(e.h3);
    CommasOfDec(e.h1);
    CommasOfDec(e.h2);
    CommasOfDec(e.h3);
    CommasOfDec(e.h4);
    assert Commas(".") == ",";
    CommasAppend(Dec(e.h1), ".");
    CommasAppend(a, Dec(e.h2));
    CommasAppend(b, ".");
    CommasAppend(b + ".", Dec(e.h3));
    CommasAppend(c, ".");
    CommasAppend(c + ".", Dec(e.h4));
  }

  lemma Nest(a: string, b: string, c: string, d: string, e: string, f: string)
    ensures a + "," + b + "," + c + "," + d + "," + e + "," + f
         == a + ("," + (b + ("," + (c + ("," + (d + ("," + (e + ("," + f)))))))))
  {
  }

  lemma PrintedIsCommaList(e: Endpoint)
    requires WellFormed(e)
    ensures Printed(e) == CommaList(Six(e))
  {
    DottedCommas(e);
    var v := Six(e);
    Nest(Dec(v[0]), Dec(v[1]), Dec(v[2]), Dec(v[3]), Dec(v[4]), Dec(v[5]));
    assert v[5..] == [v[5]] && CommaList(v[5..]) == Dec(v[5]);
    assert v[4..][1..] == v[5..] && v[3..][1..] == v[4..] && v[2..][1..] == v[3..] && v[1..][1..] == v[2..];
    assert CommaList(v[4..]) == Dec(v[4]) + ("," + CommaList(v[5..]));
    assert CommaList(v[3..]) == Dec(v[3]) + ("," + CommaList(v[4..]));
    assert CommaList(v[2..]) == Dec(v[2]) + ("," + CommaList(v[3..]));
    assert CommaList(v[1..]) == Dec(v[1]) + ("," + CommaList(v[2..]));
  }

  /**
   Printer and parser: sending back the printed text as a PORT line is accepted exactly for a
   first octet up to 252 and a port up to 65279, and then gives the same address and port.
   */
  lemma PrintThenPort(e: Endpoint)
    requires WellFormed(e)
    ensures PortTarget("PORT " + Printed(e)) == if e.h1 <= 252 && e.port <= 65279 then Some(e) else None
  {
    hide Dec, ScanSix, Printed, CommaList;
    PrintedIsCommaList(e);
    ScanSixOf(Six(e));
    assert (e.port / 256 * 256 + e.port % 256) % 0x1_0000 == e.port;
  }

  /** The second octet is not looked at: this line is accepted, and the address becomes 0.0.0.0. */
  lemma PortAcceptsBadOctet()
    ensures PortTarget("PORT " + CommaList([1, 999, 0, 0, 4, 1])) == Some(NOWHERE.(port := 1025))
  {
    hide Dec, ScanSix, CommaList;
    ScanSixOf([1, 999, 0, 0, 4, 1]);
  }
}
