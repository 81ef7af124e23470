/**
 Paths as the server's clients see them: a rooted string is a list of slash-free
 components, and normalising is a left fold of the components over a stack.

 This is the reference that the in-place normaliser in Normaliser.dfy is proved against.
 */
module Paths {
  import opened Wrappers

  /** MAX_BUF, the size of every path buffer (data.h:14). */
  const MAX_BUF: nat := 8192

  /** Empty, or starting with a slash. */
  predicate Rooted(s: string) {
    s == "" || s[0] == '/'
  }

  predicate SlashFree(c: string) {
    forall i | 0 <= i < |c| :: c[i] != '/'
  }

  /** A component that normalising keeps. */
  predicate Simple(c: string) {
    c != "" && c != "." && c != ".." && SlashFree(c)
  }

  predicate AllSlashFree(cs: seq<string>) {
    forall i | 0 <= i < |cs| :: SlashFree(cs[i])
  }

  predicate AllSimple(cs: seq<string>) {
    forall i | 0 <= i < |cs| :: Simple(cs[i])
  }

  /** Length of the leading slash-free run of `s`. */
  function Run(s: string): (n: nat)
    ensures n <= |s| && (n < |s| ==> s[n] == '/')
    ensures forall i | 0 <= i < n :: s[i] != '/'
  {
    if s == "" || s[0] == '/' then 0 else 1 + Run(s[1..])
  }

  /** The raw components of a rooted string: each one follows a slash. */
  function Comps(s: string): (cs: seq<string>)
    requires Rooted(s)
    ensures AllSlashFree(cs)
    ensures s == "" <==> cs == []
  {
    if s == "" then []
    else
      var n := Run(s[1..]);
      [s[1..n + 1]] + Comps(s[n + 1..])
  }

  /** The string that lists `cs`, each after a slash. */
  function Join(cs: seq<string>): (s: string)
    ensures Rooted(s)
    ensures s == "" <==> cs == []
  {
    if cs == [] then "" else "/" + cs[0] + Join(cs[1..])
  }

  lemma JoinCons(c: string, cs: seq<string>)
    ensures Join([c] + cs) == "/" + c + Join(cs)
  {
    assert ([c] + cs)[1..] == cs;
  }

  lemma CompsCons(c: string, rest: string)
    requires SlashFree(c) && Rooted(rest)
    ensures Comps("/" + c + rest) == [c] + Comps(rest)
  {
    var s := "/" + c + rest;
    assert s[1..] == c + rest;
    RunOf(c, rest);
    assert s[1..|c| + 1] == c && s[|c| + 1..] == rest;
  }

  lemma RunOf(c: string, rest: string)
    requires SlashFree(c) && Rooted(rest)
    ensures Run(c + rest) == |c|
  {
    var n := Run(c + rest);
    assert forall i | 0 <= i < |c| :: (c + rest)[i] == c[i];
    assert rest != "" ==> (c + rest)[|c|] == '/';
  }

  lemma SplitSlices(s: string, k: nat)
    requires 1 <= k <= |s| && s[0] == '/'
    ensures s == "/" + s[1..k] + s[k..]
  {
    assert s == s[..1] + s[1..k] + s[k..];
    assert s[..1] == "/";
  }

  /** Splitting a non-empty rooted string at its second slash. */
  lemma Split(s: string) returns (c: string, rest: string)
    requires Rooted(s) && s != ""
    ensures SlashFree(c) && Rooted(rest) && |rest| < |s|
    ensures s == "/" + c + rest && Comps(s) == [c] + Comps(rest)
  {
    var n := Run(s[1..]);
    c, rest := s[1..n + 1], s[n + 1..];
    SplitSlices(s, n + 1);
  }

  lemma {:induction false} JoinComps(s: string)
    requires Rooted(s)
    ensures Join(Comps(s)) == s
    decreases |s|
  {
    if s != "" {
      var c, rest := Split(s);
      JoinComps(rest);
      JoinCons(c, Comps(rest));
    }
  }

  lemma {:induction false} CompsJoin(cs: seq<string>)
    requires AllSlashFree(cs)
    ensures Comps(Join(cs)) == cs
  {
    if cs != [] {
      CompsJoin(cs[1..]);
      CompsCons(cs[0], Join(cs[1..]));
    }
  }

  lemma Associate(c: string, x: string, y: string)
    ensures "/" + c + x + y == "/" + c + (x + y)
  {
  }

  lemma {:induction false} JoinAppend(a: seq<string>, b: seq<string>)
    ensures Join(a + b) == Join(a) + Join(b)
  {
    if a == [] {
      assert a + b == b;
    } else {
      JoinAppend(a[1..], b);
      assert (a + b)[1..] == a[1..] + b;
      Associate(a[0], Join(a[1..]), Join(b));
    }
  }

  lemma JoinSnoc(cs: seq<string>, c: string)
    ensures Join(cs + [c]) == Join(cs) + "/" + c
    ensures |Join(cs + [c])| == |Join(cs)| + 1 + |c|
  {
    JoinAppend(cs, [c]);
    JoinCons(c, []);
    assert [c] + [] == [c];
  }

  /** Components of a concatenation, when the second string starts at a slash. */
  lemma CompsConcat(x: string, y: string)
    requires Rooted(x) && Rooted(y)
    ensures Rooted(x + y) && Comps(x + y) == Comps(x) + Comps(y)
  {
    JoinComps(x);
    JoinComps(y);
    JoinAppend(Comps(x), Comps(y));
    CompsJoin(Comps(x) + Comps(y));
  }

  // ---------- Normalising ----------

  /** Fold raw components over a stack: "" and "." are skipped, ".." pops, and popping nothing fails. */
  function Fold(stack: seq<string>, cs: seq<string>): Option<seq<string>>
    decreases |cs|
  {
    if cs == [] then Some(stack)
    else if cs[0] == "" || cs[0] == "." then Fold(stack, cs[1..])
    else if cs[0] == ".." then
      if stack == [] then None else Fold(stack[..|stack| - 1], cs[1..])
    else Fold(stack + [cs[0]], cs[1..])
  }

  /** A normalised path keeps a final slash exactly after a last raw component "" or "..". */
  predicate Trailing(cs: seq<string>) {
    cs != [] && (cs[|cs| - 1] == "" || cs[|cs| - 1] == "..")
  }

  function Render(stack: seq<string>, trailing: bool): (s: string)
    ensures Rooted(s)
  {
    Join(stack) + if trailing then "/" else ""
  }

  /** The stack fold over raw components, rendered; None when it climbs above the root. */
  function Reduce(cs: seq<string>): Option<string> {
    match Fold([], cs)
    case None => None
    case Some(stack) => Some(Render(stack, Trailing(cs)))
  }

  /** The normal form of a rooted string. */
  function Norm(s: string): Option<string>
    requires Rooted(s)
  {
    Reduce(Comps(s))
  }

  /** No "//", "." or ".." anywhere: simple components and perhaps a final slash. */
  ghost predicate Normal(s: string) {
    Rooted(s) && exists stack: seq<string>, trailing: bool :: AllSimple(stack) && s == Render(stack, trailing)
  }

  /** The raw components of a rendered stack. */
  function Marked(stack: seq<string>, trailing: bool): seq<string> {
    if trailing then stack + [""] else stack
  }

  lemma RenderIsJoin(stack: seq<string>, trailing: bool)
    ensures Render(stack, trailing) == Join(Marked(stack, trailing))
  {
    if trailing {
      JoinAppend(stack, [""]);
      assert Join([""]) == "/" + "" + Join([]);
    }
  }

  lemma RenderComps(stack: seq<string>, trailing: bool)
    requires AllSlashFree(stack)
    ensures Comps(Render(stack, trailing)) == Marked(stack, trailing)
  {
    RenderIsJoin(stack, trailing);
    assert AllSlashFree(Marked(stack, trailing));
    CompsJoin(Marked(stack, trailing));
  }

  lemma {:induction false} FoldAppend(stack: seq<string>, a: seq<string>, b: seq<string>)
    ensures Fold(stack, a + b) == match Fold(stack, a) case None => None case Some(t) => Fold(t, b)
    decreases |a|
  {
    if a == [] {
      assert a + b == b;
    } else {
      assert (a + b)[1..] == a[1..] + b;
      if a[0] == "" || a[0] == "." {
        FoldAppend(stack, a[1..], b);
      } else if a[0] == ".." {
        if stack != [] {
          FoldAppend(stack[..|stack| - 1], a[1..], b);
        }
      } else {
        FoldAppend(stack + [a[0]], a[1..], b);
      }
    }
  }

  lemma {:induction false} FoldSimple(stack: seq<string>, cs: seq<string>)
    requires AllSimple(cs)
    ensures Fold(stack, cs) == Some(stack + cs)
    decreases |cs|
  {
    if cs == [] {
      assert stack + cs == stack;
    } else {
      FoldSimple(stack + [cs[0]], cs[1..]);
      assert stack + [cs[0]] + cs[1..] == stack + cs;
    }
  }

  /** How a raw component moves the depth of the current directory. */
  function Delta(c: string): int {
    if c == "" || c == "." then 0 else if c == ".." then -1 else 1
  }

  function Depth(cs: seq<string>): int {
    if cs == [] then 0 else Delta(cs[0]) + Depth(cs[1..])
  }

  /**
   Normalising succeeds exactly when no prefix of the raw components climbs above its start,
   and what is left is as deep as the components say.
   */
  lemma {:induction false} FoldSucceedsIff(stack: seq<string>, cs: seq<string>)
    ensures Fold(stack, cs).Some? <==> forall k | 0 <= k <= |cs| :: |stack| + Depth(cs[..k]) >= 0
    ensures Fold(stack, cs).Some? ==> |Fold(stack, cs).value| == |stack| + Depth(cs)
    decreases |cs|
  {
    if cs == [] {
      assert forall k | 0 <= k <= |cs| :: Depth(cs[..k]) == 0;
    } else {
      var rest := cs[1..];
      forall k | 1 <= k <= |cs|
        ensures Depth(cs[..k]) == Delta(cs[0]) + Depth(rest[..k - 1])
      {
        assert cs[..k][0] == cs[0] && cs[..k][1..] == rest[..k - 1];
      }
      if cs[0] == ".." && stack == [] {
        assert Depth(cs[..1]) == -1;
      } else {
        var next := if Delta(cs[0]) == 0 then stack
                    else if Delta(cs[0]) == 1 then stack + [cs[0]]
                    else stack[..|stack| - 1];
        assert |next| == |stack| + Delta(cs[0]);
        assert Fold(stack, cs) == Fold(next, rest);
        FoldSucceedsIff(next, rest);
        DepthShift(cs, |stack|);
      }
    }
  }

  /** The prefix depths of a list, by those of its tail. */
  lemma DepthShift(cs: seq<string>, n: nat)
    requires cs != []
    requires forall k | 1 <= k <= |cs| :: Depth(cs[..k]) == Delta(cs[0]) + Depth(cs[1..][..k - 1])
    ensures (forall k | 0 <= k <= |cs| :: n + Depth(cs[..k]) >= 0)
       <==> (forall k | 0 <= k <= |cs[1..]| :: n + Delta(cs[0]) + Depth(cs[1..][..k]) >= 0)
  {
    var rest := cs[1..];
    assert cs[..0] == [];
    if forall k | 0 <= k <= |cs| :: n + Depth(cs[..k]) >= 0 {
      forall k | 0 <= k <= |rest|
        ensures n + Delta(cs[0]) + Depth(rest[..k]) >= 0
      {
        assert Depth(cs[..k + 1]) == Delta(cs[0]) + Depth(rest[..k + 1 - 1]);
      }
    }
    if forall k | 0 <= k <= |rest| :: n + Delta(cs[0]) + Depth(rest[..k]) >= 0 {
      forall k | 0 <= k <= |cs|
        ensures n + Depth(cs[..k]) >= 0
      {
        if k > 0 {
          assert Depth(cs[..k]) == Delta(cs[0]) + Depth(rest[..k - 1]);
        }
      }
    }
  }

  lemma FoldMarked(stack: seq<string>, trailing: bool)
    requires AllSimple(stack)
    ensures Fold([], Marked(stack, trailing)) == Some(stack)
  {
    FoldSimple([], stack);
    assert [] + stack == stack;
    if trailing {
      FoldAppend([], stack, [""]);
      assert Fold(stack, [""]) == Some(stack);
    }
  }

  /** Whatever survives the fold is simple, and no longer than what went in. */
  lemma {:induction false} FoldKeeps(stack: seq<string>, cs: seq<string>)
    requires AllSimple(stack) && AllSlashFree(cs) && Fold(stack, cs).Some?
    ensures AllSimple(Fold(stack, cs).value)
    ensures |Join(Fold(stack, cs).value)| <= |Join(stack)| + |Join(cs)|
    decreases |cs|
  {
    if cs != [] {
      if cs[0] == "" || cs[0] == "." {
        FoldKeeps(stack, cs[1..]);
      } else if cs[0] == ".." {
        var k := |stack| - 1;
        assert stack == stack[..k] + [stack[k]];
        JoinSnoc(stack[..k], stack[k]);
        FoldKeeps(stack[..k], cs[1..]);
      } else {
        JoinSnoc(stack, cs[0]);
        FoldKeeps(stack + [cs[0]], cs[1..]);
      }
    }
  }

  /** A trailing slash is paid for by the last raw component, so normalising never lengthens. */
  lemma FoldTrailingLength(cs: seq<string>)
    requires AllSlashFree(cs) && Fold([], cs).Some?
    ensures |Render(Fold([], cs).value, Trailing(cs))| <= |Join(cs)|
  {
    hide Comps;
    FoldKeeps([], cs);
    if Trailing(cs) {
      var k := |cs| - 1;
      var init, last := cs[..k], cs[k];
      assert cs == init + [last];
      JoinSnoc(init, last);
      FoldAppend([], init, [last]);
      FoldKeeps([], init);
      var before := Fold([], init).value;
      if last == ".." {
        var m := |before| - 1;
        assert before == before[..m] + [before[m]];
        JoinSnoc(before[..m], before[m]);
        assert Fold(before, [last]) == Some(before[..m]);
      } else {
        assert Fold(before, [last]) == Some(before);
      }
    }
  }

  /** What normalising returns: a normal form, never longer than its input. */
  lemma NormIsNormal(s: string)
    requires Rooted(s) && Norm(s).Some?
    ensures Normal(Norm(s).value) && |Norm(s).value| <= |s|
  {
    FoldKeeps([], Comps(s));
    FoldTrailingLength(Comps(s));
    JoinComps(s);
  }

  /** Normal forms are exactly the fixpoints of normalising. */
  lemma NormalIffFixpoint(s: string)
    requires Rooted(s)
    ensures Normal(s) <==> Norm(s) == Some(s)
  {
    if Normal(s) {
      var stack, trailing :| AllSimple(stack) && s == Render(stack, trailing);
      NormOfRender(stack, trailing);
    }
    if Norm(s) == Some(s) {
      NormIsNormal(s);
    }
  }

  lemma NormOfRender(stack: seq<string>, trailing: bool)
    requires AllSimple(stack)
    ensures Norm(Render(stack, trailing)) == Some(Render(stack, trailing))
  {
    RenderComps(stack, trailing);
    FoldMarked(stack, trailing);
  }

  /** Normalising a rendered stack followed by more components. */
  lemma NormBelow(stack: seq<string>, trailing: bool, cs: seq<string>)
    requires AllSimple(stack) && AllSlashFree(cs) && cs != []
    ensures Norm(Render(stack, trailing) + Join(cs))
         == match Fold(stack, cs) case None => None case Some(t) => Some(Render(t, Trailing(cs)))
  {
    var d := Render(stack, trailing);
    CompsConcat(d, Join(cs));
    CompsJoin(cs);
    RenderComps(stack, trailing);
    FoldMarked(stack, trailing);
    FoldAppend([], Marked(stack, trailing), cs);
    assert Trailing(Marked(stack, trailing) + cs) == Trailing(cs);
  }

  /** Confluence: a prefix may be normalised first, with the same result and the same failures. */
  lemma NormConfluent(x: string, y: string)
    requires Rooted(x) && y != "" && y[0] == '/'
    ensures Norm(x + y) == match Norm(x) case None => None case Some(n) => Norm(n + y)
  {
    CompsConcat(x, y);
    FoldAppend([], Comps(x), Comps(y));
    assert Trailing(Comps(x) + Comps(y)) == Trailing(Comps(y));
    if Fold([], Comps(x)).Some? {
      var stack := Fold([], Comps(x)).value;
      FoldKeeps([], Comps(x));
      JoinComps(y);
      NormBelow(stack, Trailing(Comps(x)), Comps(y));
    }
  }

  // ---------- connect_dir as a function ----------

  /** The path that connect_dir starts from: an absolute son as it is, any other son below the father. */
  function Raw(father: string, son: string): string {
    if son != "" && son[0] == '/' then son else father + "/" + son
  }

  /** What connect_dir leaves in its destination, None where it returns -1. */
  function Connect(father: string, son: string): Option<string>
    requires Rooted(father)
  {
    if |father| + |son| + 2 > MAX_BUF then None else Norm(Raw(father, son))
  }

  /** A session directory: normal, and short enough for its buffer with the terminator. */
  ghost predicate GoodDir(d: string) {
    Normal(d) && |d| < MAX_BUF
  }

  lemma ConnectIsGood(father: string, son: string)
    requires Rooted(father) && Connect(father, son).Some?
    ensures GoodDir(Connect(father, son).value)
  {
    NormIsNormal(Raw(father, son));
  }

  predicate NeverAboveRoot(cs: seq<string>) {
    forall k | 0 <= k <= |cs| :: Depth(cs[..k]) >= 0
  }

  /** Exactly when connect_dir succeeds, as a caller can check it: the length fits and no prefix climbs above the root. */
  lemma ConnectSucceedsIff(father: string, son: string)
    requires Rooted(father)
    ensures Connect(father, son).Some? <==>
              |father| + |son| + 2 <= MAX_BUF && NeverAboveRoot(Comps(Raw(father, son)))
  {
    FoldSucceedsIff([], Comps(Raw(father, son)));
  }

  /** Changing to `a` and then to a relative `b` is changing to a/b in one go, failures included. */
  lemma ConnectTwice(father: string, a: string, b: string)
    requires Rooted(father)
    requires a != "" && (b == "" || b[0] != '/')
    requires |father| + |a| + 1 + |b| + 2 <= MAX_BUF
    ensures Connect(father, a + "/" + b)
         == match Connect(father, a) case None => None case Some(d) => Connect(d, b)
  {
    var x, y := Raw(father, a), "/" + b;
    assert Raw(father, a + "/" + b) == x + y;
    NormConfluent(x, y);
    if Norm(x).Some? {
      NormIsNormal(x);
      assert Norm(x).value + "/" + b == Norm(x).value + y;
    }
  }

  /** A non-empty normal path, as PWD prints it, comes back byte for byte from any directory. */
  lemma ConnectFixpoint(father: string, d: string)
    requires Rooted(father) && Normal(d) && d != ""
    requires |father| + |d| + 2 <= MAX_BUF
    ensures Connect(father, d) == Some(d)
  {
    NormalIffFixpoint(d);
  }

  /** Entering a simple name and leaving it restores the components, with a final slash. */
  lemma ConnectEnterLeave(stack: seq<string>, trailing: bool, name: string)
    requires AllSimple(stack) && Simple(name)
    requires |Render(stack, trailing)| + |name| + 5 <= MAX_BUF
    ensures var d := Render(stack, trailing);
            && Connect(d, name) == Some(Render(stack + [name], false))
            && Connect(Render(stack + [name], false), "..") == Some(Render(stack, true))
  {
    hide Comps, Norm;
    var d := Render(stack, trailing);
    var e := Render(stack + [name], false);
    JoinSnoc([], name);
    assert [] + [name] == [name];
    assert d + "/" + name == d + Join([name]);
    NormBelow(stack, trailing, [name]);
    FoldSimple(stack, [name]);
    JoinSnoc([], "..");
    assert [] + [".."] == [".."];
    assert e + "/" + ".." == e + Join([".."]);
    NormBelow(stack + [name], false, [".."]);
    LeaveFolds(stack, name);
    JoinSnoc(stack, name);
  }

  lemma LeaveFolds(stack: seq<string>, name: string)
    ensures Fold(stack + [name], [".."]) == Some(stack)
  {
    assert (stack + [name])[..|stack|] == stack;
  }
}
