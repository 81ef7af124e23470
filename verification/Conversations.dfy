/**
 What several commands do together, on one session and between two servers.
 */
module Conversations {
  import opened Wrappers
  import opened Paths
  import opened HostPaths
  import opened HostPort
  import opened Commands
  import opened Clients
  import opened Answers

  /** A command line: a verb, a blank and an argument. */
  function CommandLine(verb: string, arg: string): string {
    verb + " " + arg
  }

  lemma LineParts(verb: string, arg: string)
    requires verb != "" && forall i | 0 <= i < |verb| :: verb[i] != ' '
    ensures VerbOf(CommandLine(verb, arg)) == InterpretCommand(verb)
    ensures |CommandLine(verb, arg)| == |verb| + 1 + |arg| && CommandLine(verb, arg)[|verb| + 1..] == arg
  {
    WordFirst(verb, " " + arg);
    assert verb + " " + arg == verb + (" " + arg);
  }

  /** A line made of a command's text and an argument is read as that command, and the argument follows the blank. */
  lemma VerbParts(v: Verb, arg: string)
    requires v != ERROR
    ensures var line := CommandLine(Name(v), arg);
            VerbOf(line) == v && |line| == |Name(v)| + 1 + |arg| && line[|Name(v)| + 1..] == arg
  {
    hide InterpretCommand, VerbOf;
    assert Name(v) != "" && NoBlank(Name(v));
    CommandIff(Name(v), v);
    LineParts(Name(v), arg);
  }

  /** The status the dispatch reads when nobody else interferes. */
  function Step(root: string, c: Client, line: string, env: Env): Result
    requires root != "" && Rooted(c.dir)
  {
    Interpret(root, c, c.status, line, env)
  }

  /** An anonymous login with a mail address goes through, and changes nothing but the status. */
  lemma LoginConversation(root: string, c: Client, mail: string, env: Env)
    requires root != "" && Rooted(c.dir) && c.status == Connected && LooksLikeMail(mail)
    ensures var r1 := Step(root, c, CommandLine("USER", "anonymous"), env);
            && r1 == Result(0, c.(status := Password), [Say(UserOk)], None)
            && var r2 := Step(root, r1.client, CommandLine("PASS", mail), env);
               r2 == Result(0, c.(status := Available), [Say(PassOk)], None)
  {
    LineParts("USER", "anonymous");
    LineParts("PASS", mail);
    hide VerbOf, CommandLine;
  }

  /** Exactly which lines log a connected session's user in, and a password-state session. */
  lemma LoginExactly(root: string, c: Client, line: string, env: Env)
    requires root != "" && Rooted(c.dir)
    ensures c.status == Connected ==>
              (Step(root, c, line, env).client.status == Password <==>
                 VerbOf(line) == USER && |line| >= 6 && line[5..] == "anonymous")
    ensures c.status == Password ==>
              (Step(root, c, line, env).client.status == Available <==>
                 VerbOf(line) == PASS && |line| >= 6 && exists i :: 6 <= i < |line| && line[i] == '@')
  {
    hide VerbOf;
    if |line| >= 6 {
      var s := line[5..];
      if LooksLikeMail(s) {
        var i :| 1 <= i < |s| && s[i] == '@';
        assert line[5 + i] == '@';
      }
      if i :| 6 <= i < |line| && line[i] == '@' {
        assert s[i - 5] == '@';
      }
    }
  }

  /** What CWD to `name` answers and leaves, for a session that has logged in. */
  lemma CwdLine(root: string, c: Client, name: string, env: Env)
    requires root != "" && Rooted(c.dir) && c.status == Available
    ensures var r := Step(root, c, CommandLine("CWD", name), env);
            match Connect(c.dir, name)
            case None => JustSays(r, c, Refused(504))
            case Some(d) =>
              if env.dirOk then r.client == c.(dir := d) && r.notes == [Touch(HostPath(root, d)), Say(DirChanged)]
              else r.client == c && r.notes == [Touch(HostPath(root, d)), Say(Refused(504))]
  {
    var line := CommandLine("CWD", name);
    VerbParts(CWD, name);
    hide VerbOf, CommandLine, Connect, HostPath, Rooted, Interpret;
    CwdAnswer(root, c, line, env);
  }

  /** What RMD of `name` answers; it changes nothing in the session. */
  lemma RmdLine(root: string, c: Client, name: string, env: Env)
    requires root != "" && Rooted(c.dir) && c.status == Available
    ensures var r := Step(root, c, CommandLine("RMD", name), env);
            match Connect(c.dir, name)
            case None => JustSays(r, c, Refused(504))
            case Some(d) =>
              r.client == c && r.notes == [Touch(HostPath(root, d)), Say(if env.fsOk then Removed else Refused(502))]
  {
    var line := CommandLine("RMD", name);
    VerbParts(RMD, name);
    hide VerbOf, CommandLine, Connect, HostPath, Rooted, Interpret;
    RmdAnswer(root, c, line, env);
  }

  /** RMD of a name acts on the very directory that CWD to that name would enter, and is refused where CWD has no path. */
  lemma RmdWhereCwdEnters(root: string, c: Client, name: string, env: Env)
    requires root != "" && Rooted(c.dir) && c.status == Available && env.dirOk && env.fsOk
    ensures var enter := Step(root, c, CommandLine("CWD", name), env);
            var remove := Step(root, c, CommandLine("RMD", name), env);
            if enter.notes == [Say(Refused(504))] then remove.notes == [Say(Refused(504))]
            else remove.notes == [Touch(HostPath(root, enter.client.dir)), Say(Removed)] && remove.client == c
  {
    CwdLine(root, c, name, env);
    RmdLine(root, c, name, env);
    hide Step, Connect, HostPath, CommandLine, Rooted;
  }

  lemma PwdLine(root: string, c: Client, env: Env)
    requires root != "" && c.status == Available && Rooted(c.dir)
    ensures var r := Step(root, c, "PWD", env); r.client == c && r.notes == [Say(DirIs(c.dir))]
  {
    WordFirst("PWD", "");
    assert "PWD" + "" == "PWD";
    hide FirstWord;
  }

  /** The directory that PWD prints, unless it is empty, takes any session to that same directory. */
  lemma PwdThenCwd(root: string, c: Client, other: Client, env: Env)
    requires root != "" && c.status == Available && GoodDir(c.dir) && c.dir != ""
    requires other.status == Available && Rooted(other.dir) && |other.dir| + |c.dir| + 2 <= MAX_BUF && env.dirOk
    ensures var r := Step(root, c, "PWD", env); r.client == c && r.notes == [Say(DirIs(c.dir))]
    ensures Step(root, other, CommandLine("CWD", c.dir), env).client == other.(dir := c.dir)
  {
    PwdLine(root, c, env);
    ConnectFixpoint(other.dir, c.dir);
    CwdLine(root, other, c.dir, env);
    hide Step;
    hide VerbOf, Connect, HostPath, CommandLine, GoodDir, Rooted;
  }

  /** Two changes of directory, the second one relative, are one change to the joined path. */
  lemma CwdTwice(root: string, c: Client, a: string, b: string, env: Env)
    requires root != "" && c.status == Available && GoodDir(c.dir) && env.dirOk
    requires a != "" && (b == "" || b[0] != '/') && |c.dir| + |a| + 1 + |b| + 2 <= MAX_BUF
    requires Connect(c.dir, a).Some?
    ensures var r := Step(root, c, CommandLine("CWD", a), env);
            && Rooted(r.client.dir)
            && var two := Step(root, r.client, CommandLine("CWD", b), env);
               var one := Step(root, c, CommandLine("CWD", a + "/" + b), env);
               two.notes == one.notes && (Connect(c.dir, a + "/" + b).Some? ==> two.client == one.client)
  {
    ConnectTwice(c.dir, a, b);
    ConnectIsGood(c.dir, a);
    var d := Connect(c.dir, a).value;
    CwdLine(root, c, a, env);
    CwdLine(root, c.(dir := d), b, env);
    CwdLine(root, c, a + "/" + b, env);
    hide Step, Connect, HostPath, CommandLine;
  }

  /** What RNFR of `from` answers and keeps: the host path only if it exists. */
  lemma RnfrLine(root: string, c: Client, from: string, env: Env)
    requires root != "" && Rooted(c.dir) && c.status == Available
    ensures var r := Step(root, c, CommandLine("RNFR", from), env);
            match Connect(c.dir, from)
            case None => JustSays(r, c, Refused(504))
            case Some(d) =>
              && r.client == (if env.fsOk then c.(rndir := HostPath(root, d)) else c)
              && r.notes == [Touch(HostPath(root, d)), Say(if env.fsOk then RenameReady else Refused(502))]
  {
    var line := CommandLine("RNFR", from);
    VerbParts(RNFR, from);
    hide VerbOf, CommandLine, Connect, HostPath, Rooted, Interpret;
    RnfrAnswer(root, c, line, env);
  }

  lemma RntoLine(root: string, c: Client, to: string, env: Env)
    requires root != "" && Rooted(c.dir) && c.status == Available
    ensures var r := Step(root, c, CommandLine("RNTO", to), env);
            match Connect(c.dir, to)
            case None => JustSays(r, c, Refused(504))
            case Some(d) =>
              r.client == c && r.notes == [Move(c.rndir, HostPath(root, d)), Say(if env.fsOk then Renamed else Refused(502))]
  {
    var line := CommandLine("RNTO", to);
    VerbParts(RNTO, to);
    hide VerbOf, CommandLine, Connect, HostPath, Rooted, Interpret;
    RntoAnswer(root, c, line, env);
  }

  /** RNFR and then RNTO rename the one host path to the other, both taken in the session's directory. */
  lemma RenameConversation(root: string, c: Client, from: string, to: string, env: Env)
    requires root != "" && c.status == Available && Rooted(c.dir) && env.fsOk
    requires Connect(c.dir, from).Some? && Connect(c.dir, to).Some?
    ensures var source, target := HostPath(root, Connect(c.dir, from).value), HostPath(root, Connect(c.dir, to).value);
            var r1 := Step(root, c, CommandLine("RNFR", from), env);
            && r1.notes == [Touch(source), Say(RenameReady)] && Rooted(r1.client.dir)
            && var r2 := Step(root, r1.client, CommandLine("RNTO", to), env);
               r2.notes == [Move(source, target), Say(Renamed)] && r2.client.dir == c.dir
  {
    RnfrLine(root, c, from, env);
    RntoLine(root, c.(rndir := HostPath(root, Connect(c.dir, from).value)), to, env);
    hide Step, Connect, HostPath, CommandLine;
  }

  lemma PortLine(root: string, c: Client, arg: string, env: Env)
    requires root != "" && Rooted(c.dir) && c.status == Available
    ensures var r := Step(root, c, CommandLine("PORT", arg), env);
            match PortTarget(CommandLine("PORT", arg))
            case None => JustSays(r, c, Refused(504))
            case Some(e) => JustSays(r, c.(target := e, mode := PortMode), PortOk)
  {
    VerbParts(PORT, arg);
    hide VerbOf, CommandLine, PortTarget, Rooted, Interpret;
    PortAnswer(root, c, CommandLine("PORT", arg), env);
  }

  lemma PortLineText(arg: string)
    ensures CommandLine("PORT", arg) == "PORT " + arg
  {
    assert "PORT" + " " + arg == ("PORT" + " ") + arg;
    assert "PORT" + " " == "PORT ";
  }

  /** A RETR or STOR with a name, when the data connection, the file and the thread are there. */
  lemma TransferStarts(c: Client, line: string, env: Env, kind: Kind, r: Result)
    requires TransferAnswered(c, line, env, kind, r) && FileOpened(c, line, env) && env.threadOk
    ensures r.notes == [Say(Opening)] && r.spawn == Some(kind) && r.client == c.(dataFd := env.newFd)
  {
    assert forall i | 0 <= i < |r.notes| :: r.notes[i] in r.notes;
  }

  /** After a PORT or PASV, a RETR opens the data connection and starts a sender. */
  lemma RetrLine(root: string, c: Client, name: string, env: Env)
    requires root != "" && Rooted(c.dir) && c.status == Available && name != ""
    requires Connects(c, env) && env.openOk && env.threadOk
    ensures var r := Step(root, c, CommandLine("RETR", name), env);
            r.notes == [Say(Opening)] && r.spawn == Some(Send) && r.client == c.(dataFd := env.newFd)
  {
    var line := CommandLine("RETR", name);
    VerbParts(RETR, name);
    hide VerbOf, CommandLine, Rooted, Interpret, TransferAnswered, Connects;
    RetrAnswer(root, c, line, env);
    TransferStarts(c, line, env, Send, Step(root, c, line, env));
  }

  /** And a STOR starts a receiver. */
  lemma StorLine(root: string, c: Client, name: string, env: Env)
    requires root != "" && Rooted(c.dir) && c.status == Available && name != ""
    requires Connects(c, env) && env.openOk && env.threadOk
    ensures var r := Step(root, c, CommandLine("STOR", name), env);
            r.notes == [Say(Opening)] && r.spawn == Some(Receive) && r.client == c.(dataFd := env.newFd)
  {
    var line := CommandLine("STOR", name);
    VerbParts(STOR, name);
    hide VerbOf, CommandLine, Rooted, Interpret, TransferAnswered, Connects;
    StorAnswer(root, c, line, env);
    TransferStarts(c, line, env, Receive, Step(root, c, line, env));
  }

  lemma PasvLine(root: string, c: Client, env: Env)
    requires root != "" && Rooted(c.dir) && c.status == Available && WellFormed(env.here)
    requires env.socketOk && env.bindOk && env.listenOk && env.nameOk
    ensures Step(root, c, "PASV", env).notes == [Say(Passive(Printed(env.here)))]
  {
    WordFirst("PASV", "");
    assert "PASV" + "" == "PASV";
    hide FirstWord, Printed;
  }

  /**
   The endpoint that one server prints in its 227 reply, sent to another as a PORT line, becomes
   that one's data address, exactly for the endpoints that its range check admits.
   */
  lemma PassiveThenPort(root: string, a: Client, b: Client, env: Env)
    requires root != "" && Rooted(a.dir) && Rooted(b.dir) && a.status == Available && b.status == Available
    requires WellFormed(env.here) && env.socketOk && env.bindOk && env.listenOk && env.nameOk
    ensures Step(root, a, "PASV", env).notes == [Say(Passive(Printed(env.here)))]
    ensures var r := Step(root, b, CommandLine("PORT", Printed(env.here)), env);
            if env.here.h1 <= 252 && env.here.port <= 65279
            then r.notes == [Say(PortOk)] && r.client == b.(target := env.here, mode := PortMode)
            else r.notes == [Say(Refused(504))] && r.client == b
  {
    PasvLine(root, a, env);
    var text := Printed(env.here);
    hide Step, Printed, PortTarget, WellFormed, Rooted;
    PortLine(root, b, text, env);
    PrintThenPort(env.here);
    PortLineText(text);
  }

  predicate Silent(notes: seq<Note>) {
    forall i | 0 <= i < |notes| :: !notes[i].Say?
  }

  lemma AnswersTransfer(c: Client, line: string, env: Env, kind: Kind)
    ensures var r := AnswerErrors(BeginTransfer(c, line, env, kind), map[-1 := 504, -2 := 502, -3 := 425]);
            Silent(r.notes) <==> |line| >= 6 && (c.mode == NoMode || (c.mode == PasvMode && !env.acceptOk))
  {
    var t := BeginTransfer(c, line, env, kind);
    var r := AnswerErrors(t, map[-1 := 504, -2 := 502, -3 := 425]);
    if t.notes != [] {
      assert r.notes[0] == Say(Opening);
    } else if t.ret != -4 && t.ret != -5 {
      assert r.notes[0].Say?;
    }
  }

  /**
   Exactly which commands of a session that has logged in get no reply at all: a RETR or STOR
   without a preceding PORT or PASV, or whose passive connection is not made.
   */
  lemma SilentIff(root: string, c: Client, line: string, env: Env)
    requires root != "" && Rooted(c.dir) && c.status == Available
    ensures Silent(Step(root, c, line, env).notes) <==>
              && (VerbOf(line) == RETR || VerbOf(line) == STOR) && |line| >= 6
              && (c.mode == NoMode || (c.mode == PasvMode && !env.acceptOk))
  {
    hide VerbOf, BeginTransfer, Silent, Rooted;
    match VerbOf(line) {
      case RETR => AnswersTransfer(c, line, env, Send);
      case STOR => AnswersTransfer(c, line, env, Receive);
      case _ => AnswersOther(root, c, line, env);
    }
  }

  lemma AnswersOther(root: string, c: Client, line: string, env: Env)
    requires root != "" && Rooted(c.dir) && VerbOf(line) != RETR && VerbOf(line) != STOR
    ensures !Silent(Serve(root, c, line, env).notes)
  {
    hide VerbOf, Connect, PortTarget, HostPath, Rooted, LooksLikeMail, Printed, OpenData;
    var notes := Serve(root, c, line, env).notes;
    assert notes != [];
    assert notes[0].Say? || notes[|notes| - 1].Say?;
  }
}
