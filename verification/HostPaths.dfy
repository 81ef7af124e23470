/**
 real_dir (ftputils.c:65-74): the host path of a session path, and why a normalised
 session path cannot leave the server's root directory.
 */
module HostPaths {
  import opened CStrings
  import opened Paths

  /** The root, a slash unless it ends in one, and the session path. */
  function HostPath(root: string, path: string): string
    requires root != ""
  {
    (if root[|root| - 1] != '/' then root + "/" else root) + path
  }

  function NonEmpty(cs: seq<string>): (r: seq<string>) {
    if cs == [] then []
    else if cs[0] == "" then NonEmpty(cs[1..])
    else [cs[0]] + NonEmpty(cs[1..])
  }

  /** The names in a host path, absolute or relative: its non-empty pieces between slashes. */
  function Names(s: string): seq<string> {
    NonEmpty(Comps("/" + s))
  }

  /** `host` names the root followed by simple names only, so it is the root or lies below it. */
  ghost predicate Within(root: string, host: string) {
    exists stack: seq<string> :: AllSimple(stack) && Names(host) == Names(root) + stack
  }

  lemma {:induction false} NonEmptyAppend(a: seq<string>, b: seq<string>)
    ensures NonEmpty(a + b) == NonEmpty(a) + NonEmpty(b)
  {
    if a == [] {
      assert a + b == b;
    } else {
      assert (a + b)[1..] == a[1..] + b;
      NonEmptyAppend(a[1..], b);
    }
  }

  lemma {:induction false} NonEmptySimple(cs: seq<string>)
    requires AllSimple(cs)
    ensures NonEmpty(cs) == cs
  {
    if cs != [] {
      NonEmptySimple(cs[1..]);
    }
  }

  lemma NamesAppend(s: string, t: string)
    requires Rooted(t)
    ensures Names(s + t) == Names(s) + NonEmpty(Comps(t))
  {
    hide NonEmpty, Comps;
    CompsConcat("/" + s, t);
    NonEmptyAppend(Comps("/" + s), Comps(t));
    assert "/" + (s + t) == "/" + s + t;
  }

  lemma NonEmptyMarked(stack: seq<string>, trailing: bool)
    requires AllSimple(stack)
    ensures NonEmpty(Comps(Render(stack, trailing))) == stack
  {
    RenderComps(stack, trailing);
    NonEmptySimple(stack);
    NonEmptyAppend(stack, [""]);
    assert NonEmpty([""]) == [];
  }

  /** The names of a host path are those of the root followed by those of the session path. */
  lemma HostPathNames(root: string, stack: seq<string>, trailing: bool)
    requires root != "" && AllSimple(stack)
    ensures Names(HostPath(root, Render(stack, trailing))) == Names(root) + stack
  {
    hide Render, Names;
    var d := Render(stack, trailing);
    NonEmptyMarked(stack, trailing);
    if root[|root| - 1] != '/' {
      NamesAppend(root + "/", d);
      NamesAppend(root, "/");
      NoNamesInSlash();
    } else {
      NamesAppend(root, d);
    }
  }

  lemma NoNamesInSlash()
    ensures NonEmpty(Comps("/")) == []
  {
    CompsCons("", "");
    assert "/" + "" + "" == "/";
  }

  /** A normalised session path stays within the root. */
  lemma NormalStaysWithin(root: string, d: string)
    requires root != "" && Normal(d)
    ensures Within(root, HostPath(root, d))
  {
    var stack, trailing :| AllSimple(stack) && d == Render(stack, trailing);
    HostPathNames(root, stack, trailing);
  }

  /** real_dir, with its own buffer; the host path has to fit, the source does not check it. */
  method RealDir(root: string, path: string, dest: array<char>)
    requires CStr(root) && CStr(path) && root != ""
    requires dest.Length == MAX_BUF && |HostPath(root, path)| < MAX_BUF
    modifies dest
    ensures Holds(dest[..], HostPath(root, path))
    ensures root[|root| - 1] == '/' ==> Holds(dest[..], root + path)
    ensures root[|root| - 1] != '/' ==> Holds(dest[..], root + "/" + path)
  {
    var temp := new char[MAX_BUF];
    StrCpy(temp, root);
    ghost var t := root;
    var n := StrLen(temp, t);
    if temp[n - 1] != '/' {
      StrCat(temp, t, "/");
      t := t + "/";
    }
    StrCat(temp, t, path);
    ghost var host := t + path;
    var len := StrLen(temp, host);
    HeldPrefix(temp[..], host);
    StrCpy(dest, temp[..len]);
  }

  lemma HeldPrefix(buf: seq<char>, s: string)
    requires Holds(buf, s)
    ensures buf[..|s|] == s
  {
  }
}
