/**
 connect_dir (ftputils.c:20-63): the normaliser that edits its destination buffer in place,
 proved against the stack fold of Paths.dfy.

 One iteration of its loop is the function ScanStep on the held string and the cursor;
 the method ConnectDir performs the iterations on the buffer itself.
 */
module Normaliser {
  import opened Wrappers
  import opened CStrings
  import opened Paths

  /** The three places where the loop gives up. */
  datatype Refusal = CursorAtStart | AfterSlash | NoSlash

  datatype Next = Go(s: string, p: nat) | Refuse(why: Refusal)

  function LastSlash(s: string): (k: int)
    ensures -1 <= k < |s|
    ensures k >= 0 ==> s[k] == '/'
    ensures forall i | k < i < |s| :: s[i] != '/'
  {
    if s == "" then -1
    else if s[|s| - 1] == '/' then |s| - 1
    else LastSlash(s[..|s| - 1])
  }

  /** The three patterns that the loop rewrites: "//", and "/." or "/.." as a whole component. */
  predicate AtDouble(s: string, p: nat) {
    p + 2 <= |s| && s[p] == '/' && s[p + 1] == '/'
  }

  predicate AtDot(s: string, p: nat) {
    p + 2 <= |s| && s[p] == '/' && s[p + 1] == '.' && (p + 2 == |s| || s[p + 2] == '/')
  }

  predicate AtUp(s: string, p: nat) {
    p + 3 <= |s| && s[p] == '/' && s[p + 1] == '.' && s[p + 2] == '.' && (p + 3 == |s| || s[p + 3] == '/')
  }

  /** One iteration: the new string and cursor, or the reason for returning -1. */
  function ScanStep(s: string, p: nat): Next
    requires p < |s|
  {
    if AtDouble(s, p) then Go(s[..p] + s[p + 1..], p)
    else if AtDot(s, p) then Go(s[..p] + s[p + 2..], p)
    else if AtUp(s, p) then
      if p == 0 then Refuse(CursorAtStart)
      else if s[p - 1] == '/' then Refuse(AfterSlash)
      else
        var q := LastSlash(s[..p]);
        if q < 0 then Refuse(NoSlash) else Go(s[..q + 1] + s[p + 3..], q)
    else Go(s, p + 1)
  }

  /**
   The part before the cursor is settled: it is `pre`, simple components only, followed by
   a piece of the component that the cursor is in. That component is simple too, or it is
   the empty one after a final slash.
   */
  ghost predicate SettledBy(s: string, p: nat, pre: seq<string>) {
    var b := |Join(pre)|;
    && AllSimple(pre)
    && b <= p <= |s| && s[..b] == Join(pre) && Rooted(s[b..])
    && (p == b || (s[b..] != "" && Current(Comps(s[b..])[0], p - b, |s| - b)))
  }

  ghost predicate Current(c: string, seen: nat, left: nat) {
    seen <= |c| + 1 && (Simple(c) || (c == "" && left == 1))
  }

  ghost predicate Settled(s: string, p: nat) {
    exists pre :: SettledBy(s, p, pre)
  }

  /** A state with the cursor between settled components and the rest. */
  lemma SettledHere(pre: seq<string>, t: string)
    requires AllSimple(pre) && Rooted(t)
    ensures SettledBy(Join(pre) + t, |Join(pre)|, pre) && Settled(Join(pre) + t, |Join(pre)|)
    ensures Rooted(Join(pre) + t)
  {
    var b, s := |Join(pre)|, Join(pre) + t;
    assert s[..b] == Join(pre) && s[b..] == t;
    assert SettledBy(s, b, pre);
  }

  lemma SettledStart(s: string)
    requires Rooted(s)
    ensures Settled(s, 0)
  {
    SettledHere([], s);
    assert "" + s == s;
  }

  lemma RootedJoin(pre: seq<string>)
    ensures Rooted(Join(pre))
  {
  }

  /** The pieces of a settled state. */
  lemma SettledPieces(s: string, p: nat, pre: seq<string>)
    requires SettledBy(s, p, pre)
    ensures s == Join(pre) + s[|Join(pre)|..] && Rooted(s)
  {
    RootedJoin(pre);
    hide Join, Comps, AllSimple, Current;
    var b := |Join(pre)|;
    assert s == s[..b] + s[b..];
  }

  /** The component that the cursor is in, and what follows it. */
  lemma Inside(s: string, p: nat, pre: seq<string>) returns (c: string, rest: string)
    requires SettledBy(s, p, pre) && p > |Join(pre)|
    ensures s == Join(pre) + ("/" + c + rest) && SlashFree(c) && Rooted(rest)
    ensures Current(c, p - |Join(pre)|, 1 + |c| + |rest|)
    ensures c == Comps(s[|Join(pre)|..])[0] && |s| == |Join(pre)| + 1 + |c| + |rest|
  {
    SettledPieces(s, p, pre);
    c, rest := Split(s[|Join(pre)|..]);
  }

  lemma CharsOf(x: string, c: string, rest: string)
    requires SlashFree(c) && Rooted(rest)
    ensures var s := x + ("/" + c + rest);
            && |s| == |x| + 1 + |c| + |rest|
            && s[|x|] == '/' && (forall i | |x| < i <= |x| + |c| :: s[i] != '/')
            && (rest != "" ==> s[|x| + |c| + 1] == '/')
  {
    var s := x + ("/" + c + rest);
    assert forall i | |x| < i <= |x| + |c| :: s[i] == c[i - |x| - 1];
  }

  /** Regrouping and cutting around the component `c`. */
  lemma Cut(x: string, c: string, rest: string)
    ensures x + ("/" + c + rest) == x + "/" + c + rest
    ensures var s := x + ("/" + c + rest);
            s[..|x|] + s[|x| + 1 + |c|..] == x + rest
  {
  }

  /** Cutting away the component `c` and the ".." after it. */
  lemma CutUp(x: string, c: string, rest: string)
    ensures var s, p := x + "/" + c + ("/" + ".." + rest), |x| + 1 + |c|;
            s[..p] == x + "/" + c && s[..|x| + 1] + s[p + 3..] == x + "/" + rest
  {
  }

  /** At a slash or at the end, a settled component can be moved to `pre`. */
  lemma Absorb(s: string, p: nat, pre: seq<string>) returns (pre': seq<string>)
    requires SettledBy(s, p, pre) && p > |Join(pre)|
    requires p == |s| || s[p] == '/'
    ensures SettledBy(s, p, pre')
    ensures p == |Join(pre')| || (p == |s| && s == Join(pre') + "/")
  {
    var c, rest := Inside(s, p, pre);
    CharsOf(Join(pre), c, rest);
    if c == "" {
      pre' := pre;
      assert rest == "";
      assert "/" + c + rest == "/";
    } else {
      pre' := pre + [c];
      AbsorbSimple(p, pre, c, rest);
    }
  }

  lemma AbsorbSimple(p: nat, pre: seq<string>, c: string, rest: string)
    requires AllSimple(pre) && Simple(c) && Rooted(rest)
    requires p == |Join(pre)| + 1 + |c|
    ensures SettledBy(Join(pre) + ("/" + c + rest), p, pre + [c]) && p == |Join(pre + [c])|
  {
    JoinSnoc(pre, c);
    Cut(Join(pre), c, rest);
    SettledHere(pre + [c], rest);
  }

  /** With the cursor at the end, the string is its own normal form. */
  lemma SettledEnd(s: string)
    requires Settled(s, |s|)
    ensures Rooted(s) && Norm(s) == Some(s)
  {
    var pre :| SettledBy(s, |s|, pre);
    if |s| > |Join(pre)| {
      pre := Absorb(s, |s|, pre);
    }
    if |s| == |Join(pre)| {
      assert s == Join(pre) == Render(pre, false);
      NormOfRender(pre, false);
    } else {
      assert s == Render(pre, true);
      NormOfRender(pre, true);
    }
  }

  /** What the three comparisons see, in terms of the component at the cursor. */
  lemma Patterns(x: string, c: string, rest: string)
    requires SlashFree(c) && Rooted(rest)
    ensures var s, p := x + ("/" + c + rest), |x|;
            && (AtDouble(s, p) <==> c == "" && rest != "")
            && (AtDot(s, p) <==> c == ".")
            && (AtUp(s, p) <==> c == "..")
  {
    var s := x + ("/" + c + rest);
    assert |s| == |x| + 1 + |c| + |rest| && s[|x|] == '/';
    assert forall i | 0 <= i < |c| :: s[|x| + 1 + i] == c[i];
    assert rest != "" ==> s[|x| + 1 + |c|] == rest[0] == '/';
  }

  /** Deleting a skipped component keeps the fold and the final slash. */
  lemma DropSkipped(pre: seq<string>, c: string, cs: seq<string>)
    requires AllSimple(pre)
    requires c == "." || (c == "" && cs != [])
    ensures Reduce(pre + [c] + cs) == Reduce(pre + cs)
  {
    FoldPre(pre, [c] + cs);
    FoldPre(pre, cs);
    assert pre + [c] + cs == pre + ([c] + cs);
    assert ([c] + cs)[1..] == cs;
  }

  /** Deleting a component together with the ".." after it does, too, if an empty component stays. */
  lemma DropUp(pre: seq<string>, c: string, cs: seq<string>)
    requires AllSimple(pre) && Simple(c)
    ensures Reduce(pre + [c] + [".."] + cs) == Reduce(pre + [""] + cs)
  {
    FoldPre(pre + [c], [".."] + cs);
    FoldPre(pre, [""] + cs);
    assert pre + [c] + [".."] + cs == (pre + [c]) + ([".."] + cs);
    assert pre + [""] + cs == pre + ([""] + cs);
    assert ([".."] + cs)[1..] == cs && ([""] + cs)[1..] == cs;
    assert (pre + [c])[..|pre|] == pre;
  }

  lemma FoldPre(pre: seq<string>, cs: seq<string>)
    requires AllSimple(pre)
    ensures Fold([], pre + cs) == Fold(pre, cs)
  {
    FoldAppend([], pre, cs);
    FoldSimple([], pre);
    assert [] + pre == pre;
  }

  lemma NormParts(cs: seq<string>, rest: string)
    requires AllSlashFree(cs) && Rooted(rest)
    ensures Rooted(Join(cs) + rest) && Norm(Join(cs) + rest) == Reduce(cs + Comps(rest))
  {
    CompsConcat(Join(cs), rest);
    CompsJoin(cs);
  }

  /** An outcome of an iteration that the loop's invariant allows. */
  ghost predicate Kept(s: string, p: nat, next: Next) {
    Rooted(s) &&
    match next
    case Refuse(why) => why == CursorAtStart && Norm(s) == None
    case Go(s', p') =>
      && Settled(s', p') && Rooted(s') && Norm(s') == Norm(s)
      && |s'| <= |s| && p' <= |s'| && |s'| - p' < |s| - p
  }

  /**
   The heart of the loop: from a settled state an iteration either refuses, only because the
   cursor is at the very start and only when the fold fails, or it keeps the state settled
   and the normal form unchanged. The distance from the cursor to the end strictly drops,
   also when the cursor jumps back, and the string never grows.
   */
  lemma StepKeeps(s: string, p: nat)
    requires p < |s| && Settled(s, p)
    ensures Kept(s, p, ScanStep(s, p))
  {
    var pre :| SettledBy(s, p, pre);
    if p == |Join(pre)| {
      StepAtSlash(s, p, pre);
    } else if s[p] == '/' {
      var pre' := Absorb(s, p, pre);
      StepAtSlash(s, p, pre');
    } else {
      StepInside(s, p, pre);
    }
  }

  lemma StepInside(s: string, p: nat, pre: seq<string>)
    requires p < |s| && SettledBy(s, p, pre) && p > |Join(pre)| && s[p] != '/'
    ensures Kept(s, p, ScanStep(s, p))
  {
    hide Norm, Comps, Join, Simple, SlashFree, AllSimple;
    var c, rest := Inside(s, p, pre);
    CharsOf(Join(pre), c, rest);
    assert SettledBy(s, p + 1, pre);
  }

  lemma StepAtSlash(s: string, p: nat, pre: seq<string>)
    requires p < |s| && SettledBy(s, p, pre) && p == |Join(pre)|
    ensures Kept(s, p, ScanStep(s, p))
  {
    SettledPieces(s, p, pre);
    var c, rest := Split(s[p..]);
    StepCase(pre, c, rest);
  }

  lemma StepCase(pre: seq<string>, c: string, rest: string)
    requires AllSimple(pre) && SlashFree(c) && Rooted(rest)
    ensures var s, p := Join(pre) + ("/" + c + rest), |Join(pre)|; Kept(s, p, ScanStep(s, p))
  {
    hide Kept, Join, Settled, SettledBy;
    var s, p := Join(pre) + ("/" + c + rest), |Join(pre)|;
    Patterns(Join(pre), c, rest);
    var next := ScanStep(s, p);
    if c == "." || (c == "" && rest != "") {
      assert next == Go(s[..p] + s[p + 1 + |c|..], p);
      SkipStep(p, pre, c, rest);
    } else if c == ".." {
      StepUp(p, pre, rest, next);
    } else {
      assert next == Go(s, p + 1);
      StepOn(pre, c, rest);
    }
  }

  lemma StepOn(pre: seq<string>, c: string, rest: string)
    requires AllSimple(pre) && SlashFree(c) && Rooted(rest)
    requires Simple(c) || (c == "" && rest == "")
    ensures var s, p := Join(pre) + ("/" + c + rest), |Join(pre)|; Kept(s, p, Go(s, p + 1))
  {
    hide Norm, Join, Settled;
    SettledNext(pre, c, rest);
  }

  /** Moving from a slash into a component that stays. */
  lemma SettledNext(pre: seq<string>, c: string, rest: string)
    requires AllSimple(pre) && SlashFree(c) && Rooted(rest)
    requires Simple(c) || (c == "" && rest == "")
    ensures var s, p := Join(pre) + ("/" + c + rest), |Join(pre)|; Rooted(s) && Settled(s, p + 1)
  {
    hide SettledBy, Join;
    SettledHere(pre, "/" + c + rest);
    SettledByNext(pre, c, rest);
  }

  lemma SettledByNext(pre: seq<string>, c: string, rest: string)
    requires AllSimple(pre) && SlashFree(c) && Rooted(rest)
    requires Simple(c) || (c == "" && rest == "")
    ensures SettledBy(Join(pre) + ("/" + c + rest), |Join(pre)| + 1, pre)
  {
    hide Comps, Join, AllSimple, Simple, SlashFree;
    var x, t := Join(pre), "/" + c + rest;
    CompsCons(c, rest);
    assert (x + t)[..|x|] == x;
    assert (x + t)[|x|..] == t;
  }

  lemma StepUp(p: nat, pre: seq<string>, rest: string, next: Next)
    requires AllSimple(pre) && p == |Join(pre)| && Rooted(rest)
    requires var s := Join(pre) + ("/" + ".." + rest);
             AtUp(s, p) && !AtDouble(s, p) && !AtDot(s, p) && next == ScanStep(s, p)
    ensures Kept(Join(pre) + ("/" + ".." + rest), p, next)
  {
    hide Kept, Comps;
    if pre == [] {
      assert next == Refuse(CursorAtStart);
      TopStep(rest);
    } else {
      var q, s' := UpStep(p, pre, rest);
      assert next == Go(s', q);
    }
  }

  lemma TopStep(rest: string)
    requires Rooted(rest)
    ensures Kept(Join([]) + ("/" + ".." + rest), 0, Refuse(CursorAtStart))
  {
    assert Join([]) + ("/" + ".." + rest) == "/" + ".." + rest;
    TopNorm(rest);
  }

  lemma TopNorm(rest: string)
    requires Rooted(rest)
    ensures Norm("/" + ".." + rest) == None
  {
    CompsCons("..", rest);
    hide Comps;
    assert ([".."] + Comps(rest))[0] == "..";
  }

  lemma SkipStep(p: nat, pre: seq<string>, c: string, rest: string)
    requires AllSimple(pre) && p == |Join(pre)| && Rooted(rest)
    requires c == "." || (c == "" && rest != "")
    ensures var s := Join(pre) + ("/" + c + rest);
            Kept(s, p, Go(s[..p] + s[p + 1 + |c|..], p))
  {
    Cut(Join(pre), c, rest);
    JoinSnoc(pre, c);
    NormParts(pre + [c], rest);
    NormParts(pre, rest);
    DropSkipped(pre, c, Comps(rest));
    SettledHere(pre, rest);
  }

  lemma UpStep(p: nat, pre: seq<string>, rest: string) returns (q: nat, s': string)
    requires AllSimple(pre) && pre != [] && p == |Join(pre)| && Rooted(rest)
    ensures Jumps(Join(pre) + ("/" + ".." + rest), p, q, s')
    ensures Kept(Join(pre) + ("/" + ".." + rest), p, Go(s', q))
  {
    hide Kept, Join, Jumps;
    var k := |pre| - 1;
    var front, c := pre[..k], pre[k];
    assert pre == front + [c];
    JoinSnoc(front, c);
    q, s' := |Join(front)|, Join(front) + "/" + rest;
    UpChars(Join(front), c, rest);
    UpKept(front, c, rest);
  }

  /** The jump back from `p` goes to `q` and leaves `s'`. */
  predicate Jumps(s: string, p: nat, q: nat, s': string) {
    && 0 < p && p + 3 <= |s| && s[p - 1] != '/'
    && LastSlash(s[..p]) == q && s[..q + 1] + s[p + 3..] == s'
  }

  /** What the jump back does to the characters. */
  lemma UpChars(x: string, c: string, rest: string)
    requires Simple(c)
    ensures |x + "/" + c| == |x| + 1 + |c|
    ensures Jumps(x + "/" + c + ("/" + ".." + rest), |x| + 1 + |c|, |x|, x + "/" + rest)
  {
    CutUp(x, c, rest);
    LastSlashOf(x, c);
    BeforeSlash(x, c, "/" + ".." + rest);
  }

  lemma UpKept(front: seq<string>, c: string, rest: string)
    requires AllSimple(front) && Simple(c) && Rooted(rest)
    ensures var x := Join(front);
            Kept(x + "/" + c + ("/" + ".." + rest), |x| + 1 + |c|, Go(x + "/" + rest, |x|))
  {
    var x := Join(front);
    var s, s' := x + "/" + c + ("/" + ".." + rest), x + "/" + rest;
    UpNorm(front, c, rest);
    UpSettled(front, rest);
    assert |s| == |x| + |c| + |rest| + 4 && |s'| == |x| + 1 + |rest|;
  }

  lemma UpSettled(front: seq<string>, rest: string)
    requires AllSimple(front) && Rooted(rest)
    ensures Settled(Join(front) + "/" + rest, |Join(front)|)
  {
    hide Join, Settled, SettledBy, AllSimple;
    SettledHere(front, "/" + rest);
    assert Join(front) + "/" + rest == Join(front) + ("/" + rest);
  }

  lemma UpNorm(front: seq<string>, c: string, rest: string)
    requires AllSimple(front) && Simple(c) && Rooted(rest)
    ensures var s, s' := Join(front) + "/" + c + ("/" + ".." + rest), Join(front) + "/" + rest;
            Rooted(s) && Rooted(s') && Norm(s') == Norm(s)
  {
    JoinUp(front, c, rest);
    JoinEmpty(front, rest);
    NormParts(front + [c] + [".."], rest);
    NormParts(front + [""], rest);
    DropUp(front, c, Comps(rest));
  }

  lemma JoinUp(front: seq<string>, c: string, rest: string)
    ensures Join(front + [c] + [".."]) + rest == Join(front) + "/" + c + ("/" + ".." + rest)
  {
    JoinSnoc(front, c);
    JoinSnoc(front + [c], "..");
    Cut(Join(front + [c]), "..", rest);
  }

  lemma JoinEmpty(front: seq<string>, rest: string)
    ensures Join(front + [""]) + rest == Join(front) + "/" + rest
  {
    JoinSnoc(front, "");
    assert Join(front) + "/" + "" == Join(front) + "/";
  }

  lemma BeforeSlash(x: string, c: string, t: string)
    requires c != ""
    ensures (x + "/" + c + t)[|x| + |c|] == c[|c| - 1]
  {
  }

  lemma LastSlashOf(x: string, c: string)
    requires SlashFree(c)
    ensures LastSlash(x + "/" + c) == |x|
  {
    Cut(x, c, "");
    CharsOf(x, c, "");
    assert x + "/" + c + "" == x + "/" + c;
    SameLastSlash(x + "/" + c, |x|);
  }

  /** One iteration of the loop on the buffer: exactly ScanStep, with all its branches. */
  method Iterate(dest: array<char>, ghost s: string, p: nat) returns (go: bool, ghost s': string, p': nat)
    requires Holds(dest[..], s) && p < |s|
    modifies dest
    ensures go <==> ScanStep(s, p).Go?
    ensures go ==> ScanStep(s, p) == Go(s', p') && Holds(dest[..], s')
  {
    go, s', p' := true, s, p;
    Comparisons(dest[..], s, p);
    if Matches(dest[..], p, "//") {
      s' := Delete(dest, s, p, 1);
    } else if Matches(dest[..], p, "/./") || Matches(dest[..], p, "/." + [NUL]) {
      s' := Delete(dest, s, p, 2);
    } else if Matches(dest[..], p, "/../") || Matches(dest[..], p, "/.." + [NUL]) {
      if p == 0 || dest[p - 1] == '/' {
        go := false;
        return;
      }
      dest[p] := NUL;
      var prevSlash := StrRChr(dest, s[..p], '/');
      SameLastSlash(s[..p], prevSlash);
      if prevSlash < 0 {
        go := false;
        return;
      }
      s' := CutBack(dest, s, p, prevSlash);
      p' := prevSlash;
    } else {
      p' := p + 1;
    }
  }

  lemma SameLastSlash(s: string, k: int)
    requires -1 <= k < |s| && (k >= 0 ==> s[k] == '/') && forall i | k < i < |s| :: s[i] != '/'
    ensures LastSlash(s) == k
  {
  }

  /**
   connect_dir. The result is 0 exactly when the length check passes and the fold of the raw
   components succeeds; then the buffer holds, byte for byte, the rendered stack. The loop
   runs at most once for every character of the path it starts from, and the only refusal
   it ever meets is the one at the very start of the buffer. After a refusal by length the
   buffer is untouched.
   */
  method ConnectDir(father: string, son: string, dest: array<char>) returns (r: int, ghost iterations: nat)
    requires CStr(father) && CStr(son) && Rooted(father)
    requires dest.Length == MAX_BUF
    modifies dest
    ensures r == 0 || r == -1
    ensures r == 0 <==> Connect(father, son).Some?
    ensures r == 0 ==> Holds(dest[..], Connect(father, son).value)
    ensures iterations <= |Raw(father, son)|
    ensures |father| + |son| + 2 > MAX_BUF ==> dest[..] == old(dest[..])
  {
    iterations := 0;
    if |father| + |son| + 2 > MAX_BUF {
      return -1, iterations;
    }
    if son != "" && son[0] == '/' {
      StrCpy(dest, son);
    } else {
      StrCpy(dest, father);
      StrCat(dest, father, "/");
      StrCat(dest, father + "/", son);
    }
    r, iterations := Normalise(dest, Raw(father, son));
  }

  /** The loop of connect_dir, from the joined path on. */
  method Normalise(dest: array<char>, ghost raw: string) returns (r: int, ghost iterations: nat)
    requires Rooted(raw) && Holds(dest[..], raw)
    modifies dest
    ensures r == 0 || r == -1
    ensures r == 0 <==> Norm(raw).Some?
    ensures r == 0 ==> Holds(dest[..], Norm(raw).value)
    ensures iterations <= |raw|
  {
    iterations := 0;
    ghost var s := raw;
    var p: nat := 0;
    SettledStart(s);
    while dest[p] != NUL
      invariant p <= |s| && Holds(dest[..], s)
      invariant Settled(s, p) && Rooted(s) && Norm(s) == Norm(raw)
      invariant iterations + (|s| - p) <= |raw|
      decreases |s| - p
    {
      StepKeeps(s, p);
      iterations := iterations + 1;
      var go, s', p' := Iterate(dest, s, p);
      if !go {
        return -1, iterations;
      }
      s, p := s', p';
    }
    SettledEnd(s);
    r := 0;
  }

  lemma Comparisons(buf: seq<char>, s: string, p: nat)
    requires Holds(buf, s) && p < |s|
    ensures Matches(buf, p, "//") <==> AtDouble(s, p)
    ensures Matches(buf, p, "/./") || Matches(buf, p, "/." + [NUL]) <==> AtDot(s, p)
    ensures Matches(buf, p, "/../") || Matches(buf, p, "/.." + [NUL]) <==> AtUp(s, p)
    ensures p > 0 ==> buf[p - 1] == s[p - 1]
  {
    MatchesIff(buf, s, p, "//");
    MatchesIff(buf, s, p, "/./");
    MatchesIff(buf, s, p, "/../");
    MatchesEnd(buf, s, p, "/.");
    MatchesEnd(buf, s, p, "/..");
  }

  /** memmove(p, p + n, strlen(p + n) + 1) on a held string. */
  method Delete(dest: array<char>, ghost s: string, p: nat, n: nat) returns (ghost s': string)
    requires Holds(dest[..], s) && p + n <= |s|
    modifies dest
    ensures s' == s[..p] + s[p + n..] && Holds(dest[..], s')
  {
    s' := s[..p] + s[p + n..];
    var from := p + n;
    var len := from;
    while dest[len] != NUL
      invariant from <= len <= |s|
      decreases |s| - len
    {
      len := len + 1;
    }
    MemMove(dest, p, from, len - from + 1);
    assert forall i | 0 <= i < |s'| :: s'[i] == if i < p then s[i] else s[i + n];
  }

  /** The jump back: the string is cut at the cursor by a NUL, and its tail is moved behind the previous slash. */
  method CutBack(dest: array<char>, ghost s: string, p: nat, q: nat) returns (ghost s': string)
    requires CStr(s) && q < p && p + 3 <= |s| < dest.Length
    requires (forall i | 0 <= i < |s| && i != p :: dest[i] == s[i]) && dest[|s|] == NUL
    modifies dest
    ensures s' == s[..q + 1] + s[p + 3..] && Holds(dest[..], s')
  {
    s' := s[..q + 1] + s[p + 3..];
    var from := p + 3;
    var len := from;
    while dest[len] != NUL
      invariant from <= len <= |s|
      decreases |s| - len
    {
      len := len + 1;
    }
    MemMove(dest, q + 1, from, len - from + 1);
  }
}
