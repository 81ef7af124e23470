/**
 What every command line is answered with, what it changes in the record, which host paths it
 acts on and which worker it starts, for every record and every behaviour of the system. The
 handlers and the dispatch are not named here: each theorem describes the outcome of
 `interpret` in terms of the line, the record and the system's answers alone.
 */
module Answers {
  import opened Wrappers
  import opened Paths
  import opened HostPaths
  import opened HostPort
  import opened Commands
  import opened Clients

  /** The data connection is made: in the mode that PORT or PASV has left, and if its calls succeed. */
  predicate Connects(c: Client, env: Env) {
    || (c.mode == PortMode && env.socketOk && env.bindOk && env.connectOk)
    || (c.mode == PasvMode && env.acceptOk)
  }

  /** One reply and no other effect than on the record. */
  predicate JustSays(r: Result, c': Client, m: Msg) {
    r.client == c' && r.notes == [Say(m)] && r.spawn == None
  }

  // ---------- RETR and STOR ----------

  /** The command gets as far as opening the file over a data connection. */
  predicate ReachesFile(c: Client, line: string, env: Env) {
    |line| >= 6 && Connects(c, env)
  }

  predicate FileOpened(c: Client, line: string, env: Env) {
    ReachesFile(c, line, env) && env.openOk
  }

  /** The first call that fails, by the code that it is answered with; 0 if none is, or if it has no answer. */
  function TransferCode(c: Client, line: string, env: Env): nat {
    if |line| < 6 then 504
    else if c.mode == PortMode && !env.socketOk then 504
    else if c.mode == PortMode && !env.bindOk then 502
    else if c.mode == PortMode && !env.connectOk then 425
    else if !Connects(c, env) then 0
    else if !env.openOk then 502
    else if !env.threadOk then 425
    else 0
  }

  /** The outcome of a RETR or STOR. */
  predicate TransferAnswered(c: Client, line: string, env: Env, kind: Kind, r: Result) {
    var code := TransferCode(c, line, env);
    && (Say(Opening) in r.notes <==> FileOpened(c, line, env))
    && (r.spawn.Some? <==> FileOpened(c, line, env) && env.threadOk) && (r.spawn.Some? ==> r.spawn.value == kind)
    && (Lost in r.notes <==> FileOpened(c, line, env) && !env.threadOk)
    && (forall n | n in r.notes :: n == Say(Opening) || n == Lost || (code != 0 && n == Say(Refused(code))))
    && (code != 0 ==> Say(Refused(code)) in r.notes)
    && |r.notes| == (if FileOpened(c, line, env) then if env.threadOk then 1 else 2 else 0) + (if code != 0 then 1 else 0)
    && (FileOpened(c, line, env) ==> r.notes[0] == Say(Opening))
    && r.client == c.(dataFd := if ReachesFile(c, line, env) then env.newFd else c.dataFd)
  }

  /** The same, as the list of what is noted. */
  function TransferNotes(c: Client, line: string, env: Env): seq<Note> {
    var code := TransferCode(c, line, env);
    if FileOpened(c, line, env) then if env.threadOk then [Say(Opening)] else [Say(Opening), Lost, Say(Refused(425))]
    else if code == 0 then []
    else [Say(Refused(code))]
  }

  lemma NotesAnswer(c: Client, line: string, env: Env, kind: Kind, r: Result)
    requires r.notes == TransferNotes(c, line, env)
    requires r.spawn == if FileOpened(c, line, env) && env.threadOk then Some(kind) else None
    requires r.client == c.(dataFd := if ReachesFile(c, line, env) then env.newFd else c.dataFd)
    ensures TransferAnswered(c, line, env, kind, r)
  {
    if FileOpened(c, line, env) {
      assert r.notes[0] == Say(Opening);
      if !env.threadOk {
        assert r.notes[1] == Lost && r.notes[2] == Say(Refused(425));
      }
    } else if TransferCode(c, line, env) != 0 {
      assert r.notes[0] == Say(Refused(TransferCode(c, line, env)));
    }
  }

  lemma BeginReturns(c: Client, line: string, env: Env, kind: Kind)
    ensures var t, code := BeginTransfer(c, line, env, kind), TransferCode(c, line, env);
            && (code == 0 <==> t.ret != -1 && t.ret != -2 && t.ret != -3)
            && (code != 0 ==> code == if t.ret == -1 then 504 else if t.ret == -2 then 502 else 425)
            && t.notes == (if !FileOpened(c, line, env) then [] else if env.threadOk then [Say(Opening)] else [Say(Opening), Lost])
            && t.spawn == (if FileOpened(c, line, env) && env.threadOk then Some(kind) else None)
            && t.client == c.(dataFd := if ReachesFile(c, line, env) then env.newFd else c.dataFd)
  {
  }

  lemma BeginAnswered(c: Client, line: string, env: Env, kind: Kind)
    ensures TransferAnswered(c, line, env, kind,
                             AnswerErrors(BeginTransfer(c, line, env, kind), map[-1 := 504, -2 := 502, -3 := 425]))
  {
    BeginReturns(c, line, env, kind);
    hide TransferAnswered, BeginTransfer;
    var t, errors := BeginTransfer(c, line, env, kind), map[-1 := 504, -2 := 502, -3 := 425];
    var r := AnswerErrors(t, errors);
    assert t.ret in errors <==> TransferCode(c, line, env) != 0;
    assert TransferCode(c, line, env) != 0 ==> errors[t.ret] == TransferCode(c, line, env);
    assert r.notes == t.notes + if TransferCode(c, line, env) != 0 then [Say(Refused(TransferCode(c, line, env)))] else [];
    NotesAnswer(c, line, env, kind, r);
  }

  /**
   RETR sends and STOR receives. There is a 150 exactly when the line is long enough, the data
   connection is made and the file is opened, and a worker exactly when its thread is created
   too; the first failing call decides the code.
   */
  lemma RetrAnswer(root: string, c: Client, line: string, env: Env)
    requires root != "" && Rooted(c.dir) && VerbOf(line) == RETR
    ensures TransferAnswered(c, line, env, Send, Interpret(root, c, Available, line, env))
  {
    hide VerbOf, TransferAnswered, BeginTransfer;
    BeginAnswered(c, line, env, Send);
  }

  lemma StorAnswer(root: string, c: Client, line: string, env: Env)
    requires root != "" && Rooted(c.dir) && VerbOf(line) == STOR
    ensures TransferAnswered(c, line, env, Receive, Interpret(root, c, Available, line, env))
  {
    hide VerbOf, TransferAnswered, BeginTransfer;
    BeginAnswered(c, line, env, Receive);
  }

  /** Only a RETR starts a sender and only a STOR a receiver, and no other snapshot starts either. */
  lemma WorkersComeFrom(root: string, c: Client, snapshot: Status, line: string, env: Env)
    requires root != "" && Rooted(c.dir)
    ensures var r := Interpret(root, c, snapshot, line, env);
            && (r.spawn == Some(Send) ==> VerbOf(line) == RETR && snapshot == Available)
            && (r.spawn == Some(Receive) ==> VerbOf(line) == STOR && snapshot == Available)
  {
    hide VerbOf, LooksLikeMail;
    if snapshot == Available {
      if VerbOf(line) == RETR {
        hide Interpret;
        RetrAnswer(root, c, line, env);
      } else if VerbOf(line) == STOR {
        hide Interpret;
        StorAnswer(root, c, line, env);
      } else {
        OthersSpawnNothing(root, c, line, env);
      }
    }
  }

  lemma OthersSpawnNothing(root: string, c: Client, line: string, env: Env)
    requires root != "" && Rooted(c.dir) && VerbOf(line) != RETR && VerbOf(line) != STOR
    ensures Interpret(root, c, Available, line, env).spawn == None
  {
    hide VerbOf, Connect, PortTarget, HostPath, Rooted, Printed, WellFormed;
  }

  // ---------- LIST ----------

  /**
   LIST: always a 150; a 226 exactly when the directory opens twice and the data connection is
   made, and then the data connection and the mode are used up; a 550 exactly when an opendir
   or the socket fails; no further reply for the other failures.
   */
  lemma ListAnswer(root: string, c: Client, line: string, env: Env)
    requires root != "" && Rooted(c.dir) && VerbOf(line) == LIST
    ensures var r := Interpret(root, c, Available, line, env);
            var served := env.dirOk && env.dirAgainOk && Connects(c, env);
            var missing := !env.dirOk || !env.dirAgainOk || (c.mode == PortMode && !env.socketOk);
            && |r.notes| == (if missing then 4 else 3)
            && r.notes[0] == Say(Opening) && r.notes[1] == Touch(HostPath(root, c.dir))
            && r.notes[2] == (if served then Say(Complete) else Lost)
            && (missing ==> r.notes[3] == Say(Refused(550)))
            && r.client == (if served then c.(dataFd := 0, mode := NoMode) else c)
            && r.spawn == None
  {
    hide VerbOf, HostPath, Rooted;
  }

  // ---------- Directories and files ----------

  /** The path that a line names from its `k`th character on, in the session's directory. */
  function Named(c: Client, line: string, k: nat): Option<string>
    requires Rooted(c.dir)
  {
    if |line| < k then None else Connect(c.dir, line[k..])
  }

  lemma CwdAnswer(root: string, c: Client, line: string, env: Env)
    requires root != "" && Rooted(c.dir) && VerbOf(line) == CWD
    ensures var r := Interpret(root, c, Available, line, env);
            match Named(c, line, 4)
            case None => JustSays(r, c, Refused(504))
            case Some(d) =>
              && r.notes == [Touch(HostPath(root, d)), Say(if env.dirOk then DirChanged else Refused(504))]
              && r.client == (if env.dirOk then c.(dir := d) else c) && r.spawn == None
  {
    hide VerbOf, Connect, HostPath, Rooted;
  }

  /** RMD acts on the one directory that its line names, if it names one, and changes nothing in the record. */
  lemma RmdAnswer(root: string, c: Client, line: string, env: Env)
    requires root != "" && Rooted(c.dir) && VerbOf(line) == RMD
    ensures var r := Interpret(root, c, Available, line, env);
            match Named(c, line, 4)
            case None => JustSays(r, c, Refused(504))
            case Some(d) =>
              && r.notes == [Touch(HostPath(root, d)), Say(if env.fsOk then Removed else Refused(502))]
              && r.client == c && r.spawn == None
  {
    hide VerbOf, Connect, HostPath, Rooted;
  }

  lemma RnfrAnswer(root: string, c: Client, line: string, env: Env)
    requires root != "" && Rooted(c.dir) && VerbOf(line) == RNFR
    ensures var r := Interpret(root, c, Available, line, env);
            match Named(c, line, 5)
            case None => JustSays(r, c, Refused(504))
            case Some(d) =>
              && r.notes == [Touch(HostPath(root, d)), Say(if env.fsOk then RenameReady else Refused(502))]
              && r.client == (if env.fsOk then c.(rndir := HostPath(root, d)) else c) && r.spawn == None
  {
    hide VerbOf, Connect, HostPath, Rooted;
  }

  lemma RntoAnswer(root: string, c: Client, line: string, env: Env)
    requires root != "" && Rooted(c.dir) && VerbOf(line) == RNTO
    ensures var r := Interpret(root, c, Available, line, env);
            match Named(c, line, 5)
            case None => JustSays(r, c, Refused(504))
            case Some(d) =>
              && r.notes == [Move(c.rndir, HostPath(root, d)), Say(if env.fsOk then Renamed else Refused(502))]
              && r.client == c && r.spawn == None
  {
    hide VerbOf, Connect, HostPath, Rooted;
  }

  // ---------- PORT and PASV ----------

  /** PORT sets address and mode exactly for the lines that are accepted. */
  lemma PortAnswer(root: string, c: Client, line: string, env: Env)
    requires root != "" && Rooted(c.dir) && VerbOf(line) == PORT
    ensures var r := Interpret(root, c, Available, line, env);
            match PortTarget(line)
            case None => JustSays(r, c, Refused(504))
            case Some(e) => JustSays(r, c.(target := e, mode := PortMode), PortOk)
  {
    hide VerbOf, PortTarget, Rooted;
  }

  /** PASV: a failing listen or getsockname leaves the new socket in the record. */
  lemma PasvAnswer(root: string, c: Client, line: string, env: Env)
    requires root != "" && Rooted(c.dir) && VerbOf(line) == PASV && WellFormed(env.here)
    ensures var r := Interpret(root, c, Available, line, env);
            var bound := |line| <= 4 && env.socketOk && env.bindOk;
            && r.client.dataFd == (if bound then env.newFd else c.dataFd)
            && r.client.mode == (if bound && env.listenOk && env.nameOk then PasvMode else c.mode)
            && r.client == c.(dataFd := r.client.dataFd, mode := r.client.mode) && r.spawn == None
            && r.notes == [Say(if |line| > 4 then Refused(504)
                               else if bound && env.listenOk && env.nameOk then Passive(Printed(env.here))
                               else Refused(502))]
  {
    hide VerbOf, Printed, Rooted;
  }

  // ---------- The rest ----------

  /** The commands that only talk, or set the type. */
  lemma PlainAnswer(root: string, c: Client, line: string, env: Env)
    requires root != "" && Rooted(c.dir)
    ensures var r := Interpret(root, c, Available, line, env);
            match VerbOf(line)
            case SYST => JustSays(r, c, if |line| > 4 then Refused(504) else System)
            case TYPE =>
              if |line| != 6 then JustSays(r, c, Refused(501))
              else if line[5] == 'I' then JustSays(r, c.(bytes := Binary), TypeSet(Binary))
              else if line[5] == 'A' then JustSays(r, c.(bytes := Ascii), TypeSet(Ascii))
              else JustSays(r, c, Refused(504))
            case QUIT => JustSays(r, c, if |line| > 4 then Refused(500) else Goodbye)
            case PWD => JustSays(r, c, if |line| == 3 then DirIs(c.dir) else Refused(504))
            case MKD => JustSays(r, c, if |line| < 4 then Refused(504) else if env.fsOk then Made else Refused(502))
            case USER => JustSays(r, c, Refused(500))
            case PASS => JustSays(r, c, Refused(500))
            case ERROR => JustSays(r, c, Refused(500))
            case _ => true
  {
    hide VerbOf, Connect, HostPath, Rooted, BeginTransfer, List, Cwd, Rmd, Rnfr, Rnto, Port, Pasv;
  }

  /** Before the login: one reply to every line, and the status moves only by the one right line. */
  lemma LoginAnswer(root: string, c: Client, line: string, env: Env)
    requires root != "" && Rooted(c.dir)
    ensures var r := Interpret(root, c, Connected, line, env);
            var named := VerbOf(line) == USER && |line| >= 6 && line[5..] == "anonymous";
            if named then JustSays(r, c.(status := Password), UserOk)
            else JustSays(r, c, Refused(if VerbOf(line) == ERROR then 500 else if VerbOf(line) == USER then 504 else 503))
    ensures var r := Interpret(root, c, Password, line, env);
            var mailed := VerbOf(line) == PASS && exists i :: 6 <= i < |line| && line[i] == '@';
            if mailed then JustSays(r, c.(status := Available), PassOk)
            else JustSays(r, c, Refused(if VerbOf(line) == ERROR then 500 else if VerbOf(line) == PASS then 504 else 503))
  {
    hide VerbOf, Rooted;
    if |line| >= 6 {
      MailIn(line);
    }
    hide LooksLikeMail;
  }

  lemma MailIn(line: string)
    requires |line| >= 6
    ensures LooksLikeMail(line[5..]) <==> exists i :: 6 <= i < |line| && line[i] == '@'
  {
    var s := line[5..];
    if LooksLikeMail(s) {
      var i :| 1 <= i < |s| && s[i] == '@';
      assert line[5 + i] == '@';
    }
    if i :| 6 <= i < |line| && line[i] == '@' {
      assert s[i - 5] == '@';
    }
  }

  /** In a transfer, and on a record that is not in use, a line has no effect at all. */
  lemma NoAnswer(root: string, c: Client, snapshot: Status, line: string, env: Env)
    requires root != "" && Rooted(c.dir) && (snapshot == Transfer || snapshot == Disconnected)
    ensures var r := Interpret(root, c, snapshot, line, env); r.client == c && r.notes == [] && r.spawn == None
  {
  }
}
