/**
 The C string library as far as the path code uses it, on character buffers.
 A buffer holds the characters of a string, a terminating NUL, and arbitrary bytes after it.
 */
module CStrings {
  const NUL: char := '\0'

  predicate CStr(s: string) {
    forall i | 0 <= i < |s| :: s[i] != NUL
  }

  /** The buffer contents `buf`, read as a C string, are `s`. */
  ghost predicate Holds(buf: seq<char>, s: string) {
    CStr(s) && |s| < |buf| && (forall i | 0 <= i < |s| :: buf[i] == s[i]) && buf[|s|] == NUL
  }

  /** strncmp(buf + p, lit, |lit|) == 0: compare until a difference, a NUL, or the end of `lit`. */
  predicate Matches(buf: seq<char>, p: nat, lit: string)
    decreases |lit|
  {
    lit == "" ||
    (p < |buf| && buf[p] == lit[0] && (buf[p] == NUL || Matches(buf, p + 1, lit[1..])))
  }

  predicate StartsAt(s: string, p: nat, lit: string) {
    p + |lit| <= |s| && forall i | 0 <= i < |lit| :: s[p + i] == lit[i]
  }

  /** On a held string, strncmp with a NUL-free literal looks for the literal at the cursor. */
  lemma {:induction false} MatchesIff(buf: seq<char>, s: string, p: nat, lit: string)
    requires Holds(buf, s) && p <= |s| && CStr(lit)
    ensures Matches(buf, p, lit) <==> StartsAt(s, p, lit)
    decreases |lit|
  {
    if lit != "" && p < |s| {
      MatchesIff(buf, s, p + 1, lit[1..]);
      StartsAtCons(s, p, lit);
    }
  }

  lemma StartsAtCons(s: string, p: nat, lit: string)
    requires lit != "" && p < |s|
    ensures StartsAt(s, p, lit) <==> s[p] == lit[0] && StartsAt(s, p + 1, lit[1..])
  {
    var tail := lit[1..];
    if StartsAt(s, p, lit) {
      assert forall i | 0 <= i < |tail| :: s[p + 1 + i] == s[p + (i + 1)] == lit[i + 1] == tail[i];
    }
    if s[p] == lit[0] && StartsAt(s, p + 1, tail) {
      assert forall i | 1 <= i < |lit| :: s[p + i] == s[p + 1 + (i - 1)] == tail[i - 1] == lit[i];
    }
  }

  /** With a NUL at the end of the literal, it looks for the literal as the whole rest of the string. */
  lemma {:induction false} MatchesEnd(buf: seq<char>, s: string, p: nat, lit: string)
    requires Holds(buf, s) && p <= |s| && CStr(lit)
    ensures Matches(buf, p, lit + [NUL]) <==> |s| == p + |lit| && StartsAt(s, p, lit)
    decreases |lit|
  {
    var whole := lit + [NUL];
    if lit != "" && p < |s| {
      assert whole[1..] == lit[1..] + [NUL];
      MatchesEnd(buf, s, p + 1, lit[1..]);
      StartsAtCons(s, p, lit);
    }
  }

  /** strlen. */
  method StrLen(buf: array<char>, ghost s: string) returns (n: nat)
    requires Holds(buf[..], s)
    ensures n == |s|
  {
    n := 0;
    while buf[n] != NUL
      invariant n <= |s|
      decreases |s| - n
    {
      n := n + 1;
    }
  }

  /** Write `s` and a terminator from index `at` on. */
  method Put(buf: array<char>, at: nat, s: string)
    requires at + |s| < buf.Length
    modifies buf
    ensures buf[..at] == old(buf[..at])
    ensures buf[at..at + |s|] == s && buf[at + |s|] == NUL
  {
    forall i | 0 <= i < |s| {
      buf[at + i] := s[i];
    }
    buf[at + |s|] := NUL;
  }

  /** strcpy. */
  method StrCpy(buf: array<char>, s: string)
    requires CStr(s) && |s| < buf.Length
    modifies buf
    ensures Holds(buf[..], s)
  {
    Put(buf, 0, s);
    assert forall i | 0 <= i < |s| :: buf[i] == buf[0..0 + |s|][i];
  }

  /** strcat. */
  method StrCat(buf: array<char>, ghost t: string, s: string)
    requires Holds(buf[..], t) && CStr(s) && |t| + |s| < buf.Length
    modifies buf
    ensures Holds(buf[..], t + s)
  {
    var n := StrLen(buf, t);
    ghost var before := buf[..n];
    Put(buf, n, s);
    assert forall i | 0 <= i < n :: buf[i] == buf[..n][i] == before[i];
    assert forall i | n <= i < n + |s| :: buf[i] == buf[n..n + |s|][i - n];
  }

  /** memmove of `n` characters towards the front. */
  method MemMove(buf: array<char>, to: nat, from: nat, n: nat)
    requires to <= from && from + n <= buf.Length
    modifies buf
    ensures forall i | to <= i < to + n :: buf[i] == old(buf[i - to + from])
    ensures forall i | (0 <= i < to || to + n <= i < buf.Length) :: buf[i] == old(buf[i])
  {
    forall i | 0 <= i < n {
      buf[to + i] := buf[from + i];
    }
  }

  /** strrchr, as an index, -1 for NULL. */
  method StrRChr(buf: array<char>, ghost s: string, c: char) returns (k: int)
    requires Holds(buf[..], s) && c != NUL
    ensures -1 <= k < |s|
    ensures k >= 0 ==> s[k] == c
    ensures forall i | k < i < |s| :: s[i] != c
  {
    k := -1;
    var n := StrLen(buf, s);
    for i := 0 to n
      invariant -1 <= k < i
      invariant k >= 0 ==> s[k] == c
      invariant forall j | k < j < i :: s[j] != c
    {
      if buf[i] == c {
        k := i;
      }
    }
  }
}
