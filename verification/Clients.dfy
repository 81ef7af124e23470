/**
 What one control connection does: the client record (data.h:19-30), the command handlers
 (control.c) and the dispatch of `interpret` (interpreter.c:80-370), as functions on values.

 The operating system's answers are an Env; a handler's effects are a new record, the replies
 and host paths it sends and touches, and perhaps a worker to start. The methods of
 Sessions.dfy perform the same handlers on a record in place.
 */
module Clients {
  import opened Wrappers
  import opened Paths
  import opened HostPaths
  import opened HostPort
  import opened Commands

  datatype Status = Disconnected | Connected | Password | Available | Transfer

  datatype Mode = NoMode | PasvMode | PortMode

  datatype Bytes = Binary | Ascii

  datatype Client = Client(
    status: Status,
    dataFd: int,
    bytes: Bytes,
    mode: Mode,
    target: Endpoint,
    dir: string,
    rndir: string)

  /** A record after memset. */
  const EMPTY := Client(Disconnected, 0, Binary, NoMode, NOWHERE, "", "")

  /** Replies on the control connection, by what they say; Refused stands for the error replies. */
  datatype Msg =
    | Welcome | UserOk | PassOk | System | TypeSet(bytes: Bytes) | PortOk | Passive(text: string)
    | Opening | Complete | Goodbye | DirChanged | DirIs(dir: string) | Made | Removed | RenameReady | Renamed
    | Refused(errorCode: nat)

  /**
   What a session does that others can see. Lost marks a transfer or list that has had its
   150 and will not get a 226; HungUp marks the end of the control connection.
   */
  datatype Note =
    | Say(msg: Msg)
    | Touch(path: string)
    | Move(from: string, to: string)
    | Lost
    | HungUp

  datatype Kind = Send | Receive

  /** The system's answers to the calls of one handler, and the bytes of the file or stream it opens. */
  datatype Env = Env(
    socketOk: bool, bindOk: bool, listenOk: bool, nameOk: bool, connectOk: bool, acceptOk: bool,
    openOk: bool, threadOk: bool, dirOk: bool, dirAgainOk: bool, fsOk: bool,
    newFd: int, here: Endpoint, source: seq<int>)

  /** A handler's return value and effects. */
  datatype Result = Result(ret: int, client: Client, notes: seq<Note>, spawn: Option<Kind>)

  function Only(ret: int, c: Client): Result {
    Result(ret, c, [], None)
  }

  // ---------- Handlers ----------

  /** control.c:4-16 */
  function User(c: Client, line: string): Result {
    if |line| < 6 then Only(-1, c)
    else if line[5..] != "anonymous" then Only(-2, c)
    else Only(0, c.(status := Password))
  }

  /** An '@' that is not the first character. */
  predicate LooksLikeMail(s: string) {
    exists i :: 1 <= i < |s| && s[i] == '@'
  }

  /** control.c:18-40 */
  function Pass(c: Client, line: string): Result {
    if |line| < 6 then Only(-1, c)
    else if !LooksLikeMail(line[5..]) then Only(-2, c)
    else Only(0, c.(status := Available))
  }

  /** control.c:42-52, called with six characters only */
  function Type(c: Client, line: string): Result
    requires |line| == 6
  {
    if line[5] == 'A' then Only(1, c.(bytes := Ascii))
    else if line[5] == 'I' then Only(0, c.(bytes := Binary))
    else Only(-1, c)
  }

  /** control.c:54-87 */
  function Port(c: Client, line: string): Result {
    match PortTarget(line)
    case None => Only(-1, c)
    case Some(e) => Only(0, c.(target := e, mode := PortMode))
  }

  /** control.c:89-147; a failing listen or getsockname comes after the socket was stored */
  function Pasv(c: Client, line: string, env: Env): Result {
    if |line| > 4 then Only(-1, c)
    else if !env.socketOk || !env.bindOk then Only(-2, c)
    else if !env.listenOk || !env.nameOk then Only(-2, c.(dataFd := env.newFd))
    else Only(0, c.(dataFd := env.newFd, mode := PasvMode))
  }

  /** The data connection of RETR, STOR and LIST (control.c:160-205): 0, or the return value. */
  function OpenData(c: Client, env: Env): Result {
    match c.mode
    case PortMode =>
      if !env.socketOk then Only(-1, c)
      else if !env.bindOk then Only(-2, c)
      else if !env.connectOk then Only(-3, c)
      else Only(0, c.(dataFd := env.newFd))
    case PasvMode =>
      if !env.acceptOk then Only(-4, c) else Only(0, c.(dataFd := env.newFd))
    case NoMode => Only(-5, c)
  }

  /** retr and stor (control.c:149-249, 251-351) */
  function BeginTransfer(c: Client, line: string, env: Env, kind: Kind): Result {
    if |line| < 6 then Only(-1, c)
    else
      var data := OpenData(c, env);
      if data.ret != 0 then data
      else if !env.openOk then Only(-2, data.client)
      else if !env.threadOk then Result(-3, data.client, [Say(Opening), Lost], None)
      else Result(0, data.client, [Say(Opening)], Some(kind))
  }

  /** control.c:353-358 */
  function Quit(c: Client, line: string): Result {
    if |line| > 4 then Only(-1, c) else Only(0, c)
  }

  /** control.c:421-562; the 150 is sent before anything is checked */
  function List(root: string, c: Client, env: Env): Result
    requires root != ""
  {
    var start := [Say(Opening), Touch(HostPath(root, c.dir))];
    if !env.dirOk || !env.dirAgainOk then Result(-1, c, start + [Lost], None)
    else
      var data := OpenData(c, env);
      if data.ret != 0 then Result(data.ret, data.client, start + [Lost], None)
      else Result(0, c.(dataFd := 0, mode := NoMode), start + [Say(Complete)], None)
  }

  /** control.c:360-391 */
  function Cwd(root: string, c: Client, line: string, env: Env): Result
    requires root != "" && Rooted(c.dir)
  {
    if |line| < 4 then Only(-1, c)
    else
      match Connect(c.dir, line[4..])
      case None => Only(-1, c)
      case Some(d) =>
        var touched := [Touch(HostPath(root, d))];
        if !env.dirOk then Result(-2, c, touched, None)
        else Result(0, c.(dir := d), touched, None)
  }

  /** control.c:394-419, the session step only: its path is not checked and is left out */
  function Mkd(c: Client, line: string, env: Env): Result {
    if |line| < 4 then Only(-1, c) else if !env.fsOk then Only(-2, c) else Only(0, c)
  }

  /** control.c:564-588 */
  function Rmd(root: string, c: Client, line: string, env: Env): Result
    requires root != "" && Rooted(c.dir)
  {
    if |line| < 4 then Only(-1, c)
    else
      match Connect(c.dir, line[4..])
      case None => Only(-1, c)
      case Some(d) => Result(if env.fsOk then 0 else -2, c, [Touch(HostPath(root, d))], None)
  }

  /** control.c:590-616 */
  function Rnfr(root: string, c: Client, line: string, env: Env): Result
    requires root != "" && Rooted(c.dir)
  {
    if |line| < 5 then Only(-1, c)
    else
      match Connect(c.dir, line[5..])
      case None => Only(-1, c)
      case Some(d) =>
        var host := HostPath(root, d);
        if !env.fsOk then Result(-2, c, [Touch(host)], None)
        else Result(0, c.(rndir := host), [Touch(host)], None)
  }

  /** control.c:618-642 */
  function Rnto(root: string, c: Client, line: string, env: Env): Result
    requires root != "" && Rooted(c.dir)
  {
    if |line| < 5 then Only(-1, c)
    else
      match Connect(c.dir, line[5..])
      case None => Only(-1, c)
      case Some(d) => Result(if env.fsOk then 0 else -2, c, [Move(c.rndir, HostPath(root, d))], None)
  }

  // ---------- What a worker does to the record (ftputils.c:142-144, 162-169) ----------

  function Started(c: Client): Client {
    c.(status := Transfer)
  }

  function Released(c: Client): Client {
    c.(status := Available, mode := NoMode)
  }

  function DataClosed(c: Client): Client {
    c.(dataFd := 0)
  }

  // ---------- Dispatch ----------

  /** The reply after a handler: one for 0, error codes for some other values, and none for the rest. */
  function Answer(r: Result, ok: Msg, errors: map<int, nat>): Result {
    if r.ret == 0 then r.(notes := r.notes + [Say(ok)])
    else if r.ret in errors then r.(notes := r.notes + [Say(Refused(errors[r.ret]))])
    else r
  }

  /** Like Answer, for the handlers that have sent their own 150 when they return 0. */
  function AnswerErrors(r: Result, errors: map<int, nat>): Result {
    if r.ret != 0 && r.ret in errors then r.(notes := r.notes + [Say(Refused(errors[r.ret]))]) else r
  }

  function Reply(c: Client, m: Msg): Result {
    Result(0, c, [Say(m)], None)
  }

  /** The branch of `interpret` for a session that has logged in (interpreter.c:153-362). */
  function Serve(root: string, c: Client, line: string, env: Env): Result
    requires root != "" && Rooted(c.dir)
  {
    match VerbOf(line)
    case SYST => Reply(c, if |line| > 4 then Refused(504) else System)
    case TYPE =>
      if |line| != 6 then Reply(c, Refused(501))
      else
        var r := Type(c, line);
        Reply(r.client, if r.ret == -1 then Refused(504) else TypeSet(r.client.bytes))
    case PORT =>
      Answer(Port(c, line), PortOk, map[-1 := 504])
    case PASV =>
      Answer(Pasv(c, line, env), Passive(if WellFormed(env.here) then Printed(env.here) else ""), map[-1 := 504, -2 := 502])
    case RETR => AnswerErrors(BeginTransfer(c, line, env, Send), map[-1 := 504, -2 := 502, -3 := 425])
    case STOR => AnswerErrors(BeginTransfer(c, line, env, Receive), map[-1 := 504, -2 := 502, -3 := 425])
    case QUIT => Answer(Quit(c, line), Goodbye, map[-1 := 500])
    case CWD => Answer(Cwd(root, c, line, env), DirChanged, map[-1 := 504, -2 := 504])
    case PWD => Reply(c, if |line| != 3 then Refused(504) else DirIs(c.dir))
    case MKD => Answer(Mkd(c, line, env), Made, map[-1 := 504, -2 := 502])
    case LIST => AnswerErrors(List(root, c, env), map[-1 := 550])
    case RMD => Answer(Rmd(root, c, line, env), Removed, map[-1 := 504, -2 := 502])
    case RNFR => Answer(Rnfr(root, c, line, env), RenameReady, map[-1 := 504, -2 := 502])
    case RNTO => Answer(Rnto(root, c, line, env), Renamed, map[-1 := 504, -2 := 502])
    case _ => Reply(c, Refused(500))
  }

  /** interpret: the branch is chosen by the status snapshot, the handlers act on the record as it is then. */
  function Interpret(root: string, c: Client, snapshot: Status, line: string, env: Env): Result
    requires root != "" && Rooted(c.dir)
  {
    match snapshot
    case Disconnected => Only(0, c)
    case Connected =>
      (match VerbOf(line)
       case USER => Answer(User(c, line), UserOk, map[-1 := 504, -2 := 504])
       case ERROR => Reply(c, Refused(500))
       case _ => Reply(c, Refused(503)))
    case Password =>
      (match VerbOf(line)
       case PASS => Answer(Pass(c, line), PassOk, map[-1 := 504, -2 := 504])
       case ERROR => Reply(c, Refused(500))
       case _ => Reply(c, Refused(503)))
    case Available => Serve(root, c, line, env)
    case Transfer => Only(0, c)
  }

  // ---------- What a handler can do, in general ----------

  /** Notes that say nothing about logging in, data connections or transfers. */
  predicate PlainNote(n: Note) {
    match n
    case Say(m) =>
      !(m.Welcome? || m.UserOk? || m.PassOk? || m.PortOk? || m.Passive? || m.Opening? || m.Complete?)
    case Touch(_) => true
    case Move(_, _) => true
    case _ => false
  }

  predicate Plain(notes: seq<Note>) {
    forall i | 0 <= i < |notes| :: PlainNote(notes[i])
  }

  /** A list or transfer that got its 150 and then failed. */
  predicate FailedAfterOpening(notes: seq<Note>) {
    exists i :: 1 <= i < |notes| && notes[0] == Say(Opening) && notes[i] == Lost
             && Plain(notes[1..i]) && Plain(notes[i + 1..])
  }

  predicate Listed(notes: seq<Note>) {
    |notes| == 3 && notes[0] == Say(Opening) && PlainNote(notes[1]) && notes[2] == Say(Complete)
  }

  /** The possible outcomes of a command of a session that has logged in. */
  predicate Shape(c: Client, r: Result) {
    && r.client.status == c.status
    && (r.spawn.Some? ==> c.mode != NoMode && r.client.mode == c.mode && r.notes == [Say(Opening)])
    && (r.spawn.None? ==>
          || (Plain(r.notes) && r.client.mode == c.mode)
          || (r.notes == [Say(PortOk)] && r.client.mode == PortMode)
          || (|r.notes| == 1 && r.notes[0].Say? && r.notes[0].msg.Passive? && r.client.mode == PasvMode)
          || (FailedAfterOpening(r.notes) && r.client.mode == c.mode)
          || (Listed(r.notes) && c.mode != NoMode && r.client.mode == NoMode))
  }

  /** A host path that belongs to the server's root. */
  ghost predicate NoteWithin(root: string, rndir: string, n: Note) {
    match n
    case Touch(path) => Within(root, path)
    case Move(from, to) => from == rndir && Within(root, to)
    case _ => true
  }

  /** Directories stay good, and host paths stay within the root. */
  ghost predicate Contained(root: string, c: Client, r: Result) {
    && GoodDir(r.client.dir)
    && (r.client.rndir == c.rndir || Within(root, r.client.rndir))
    && forall i | 0 <= i < |r.notes| :: NoteWithin(root, c.rndir, r.notes[i])
  }

  lemma OpenDataShape(c: Client, env: Env)
    ensures var r := OpenData(c, env);
            && r.client == c.(dataFd := r.client.dataFd) && r.notes == [] && r.spawn == None
            && (r.ret == 0 ==> c.mode != NoMode)
  {
  }

  lemma TransferShape(root: string, c: Client, line: string, env: Env, kind: Kind, errors: map<int, nat>)
    requires 0 !in errors && root != "" && GoodDir(c.dir)
    ensures var r := AnswerErrors(BeginTransfer(c, line, env, kind), errors); Shape(c, r) && Contained(root, c, r)
  {
    OpenDataShape(c, env);
    hide OpenData, Within, GoodDir;
    var t := BeginTransfer(c, line, env, kind);
    var r := AnswerErrors(t, errors);
    if t.ret != 0 && t.notes != [] {
      assert r.notes[1..1] == [];
      assert r.notes[1] == Lost && Plain(r.notes[2..]);
    }
  }

  /** The notes of LIST with its reply. */
  lemma ListNotes(root: string, c: Client, env: Env, errors: map<int, nat>)
    requires 0 !in errors && root != ""
    ensures var r := AnswerErrors(List(root, c, env), errors);
            var start := [Say(Opening), Touch(HostPath(root, c.dir))];
            r.spawn == None &&
            (|| (r.notes == start + [Say(Complete)] && r.client == c.(dataFd := 0, mode := NoMode) && c.mode != NoMode)
            || (r.notes == start + [Lost] && r.client == c.(dataFd := r.client.dataFd))
            || (|r.notes| == 4 && r.notes[..3] == start + [Lost] && r.notes[3].Say? && PlainNote(r.notes[3])
                && r.client == c.(dataFd := r.client.dataFd)))
  {
    OpenDataShape(c, env);
    hide OpenData, HostPath;
  }

  lemma ListShape(root: string, c: Client, env: Env, errors: map<int, nat>)
    requires 0 !in errors && root != "" && GoodDir(c.dir)
    ensures var r := AnswerErrors(List(root, c, env), errors); Shape(c, r) && Contained(root, c, r)
  {
    hide GoodDir, HostPath, AnswerErrors, List, Within;
    ListNotes(root, c, env, errors);
    NormalStaysIn(root, c.dir);
    var r := AnswerErrors(List(root, c, env), errors);
    var start := [Say(Opening), Touch(HostPath(root, c.dir))];
    assert |r.notes| == 4 ==> r.notes[0] == (start + [Lost])[0] && r.notes[1] == (start + [Lost])[1] && r.notes[2] == Lost;
    ListedOrFailed(c, r, HostPath(root, c.dir));
    TouchesWithin(root, c, r, HostPath(root, c.dir));
  }

  lemma NormalStaysIn(root: string, d: string)
    requires root != "" && GoodDir(d)
    ensures Within(root, HostPath(root, d))
  {
    NormalStaysWithin(root, d);
  }

  lemma ListedOrFailed(c: Client, r: Result, host: string)
    requires |r.notes| >= 3 && r.notes[0] == Say(Opening) && r.notes[1] == Touch(host)
    requires r.spawn == None && r.client.status == c.status && |r.notes| <= 4
    requires |r.notes| == 4 ==> PlainNote(r.notes[3])
    requires (|r.notes| == 3 && r.notes[2] == Say(Complete) && c.mode != NoMode && r.client.mode == NoMode)
             || (r.notes[2] == Lost && r.client.mode == c.mode)
    ensures Shape(c, r)
  {
    if r.notes[2] == Lost {
      FailedNotes(r.notes, 2);
    }
  }

  lemma TouchesWithin(root: string, c: Client, r: Result, host: string)
    requires GoodDir(r.client.dir) && r.client.rndir == c.rndir && Within(root, host)
    requires forall n | n in r.notes :: n == Touch(host) || n == Lost || n.Say?
    ensures Contained(root, c, r)
  {
    hide GoodDir, Within;
  }

  lemma FailedNotes(notes: seq<Note>, i: nat)
    requires 1 <= i < |notes| && notes[0] == Say(Opening) && notes[i] == Lost
    requires forall k | 1 <= k < |notes| && k != i :: PlainNote(notes[k])
    ensures FailedAfterOpening(notes)
  {
    assert Plain(notes[1..i]) && Plain(notes[i + 1..]);
  }

  /** A handler that leaves the protocol state alone. */
  predicate Calm(c: Client, r: Result) {
    Plain(r.notes) && r.spawn == None && r.client.status == c.status && r.client.mode == c.mode
  }

  /** The reply does not change that, nor where the handler's host paths are. */
  lemma AnswerShape(root: string, c: Client, r: Result, ok: Msg, errors: map<int, nat>)
    requires Calm(c, r) && Contained(root, c, r) && PlainNote(Say(ok))
    ensures Shape(c, Answer(r, ok, errors)) && Contained(root, c, Answer(r, ok, errors))
  {
    hide GoodDir, Within;
    var a := Answer(r, ok, errors);
    assert forall i | 0 <= i < |a.notes| :: i < |r.notes| ==> a.notes[i] == r.notes[i];
  }

  // CWD, RMD, RNFR and RNTO, with their replies.

  lemma CwdShape(root: string, c: Client, line: string, env: Env, errors: map<int, nat>)
    requires root != "" && GoodDir(c.dir)
    ensures var r := Answer(Cwd(root, c, line, env), DirChanged, errors); Shape(c, r) && Contained(root, c, r)
  {
    hide Connect, Within, GoodDir, HostPath, Answer, Shape, Rooted;
    GoodIsRooted(c.dir);
    if |line| >= 4 {
      Located(root, c, line[4..]);
    }
    AnswerShape(root, c, Cwd(root, c, line, env), DirChanged, errors);
  }

  lemma RmdShape(root: string, c: Client, line: string, env: Env, errors: map<int, nat>)
    requires root != "" && GoodDir(c.dir)
    ensures var r := Answer(Rmd(root, c, line, env), Removed, errors); Shape(c, r) && Contained(root, c, r)
  {
    hide Connect, Within, GoodDir, HostPath, Answer, Shape, Rooted;
    GoodIsRooted(c.dir);
    if |line| >= 4 {
      Located(root, c, line[4..]);
    }
    AnswerShape(root, c, Rmd(root, c, line, env), Removed, errors);
  }

  lemma RnfrShape(root: string, c: Client, line: string, env: Env, errors: map<int, nat>)
    requires root != "" && GoodDir(c.dir)
    ensures var r := Answer(Rnfr(root, c, line, env), RenameReady, errors); Shape(c, r) && Contained(root, c, r)
  {
    hide Connect, Within, GoodDir, HostPath, Answer, Shape, Rooted;
    GoodIsRooted(c.dir);
    if |line| >= 5 {
      Located(root, c, line[5..]);
    }
    AnswerShape(root, c, Rnfr(root, c, line, env), RenameReady, errors);
  }

  lemma RntoShape(root: string, c: Client, line: string, env: Env, errors: map<int, nat>)
    requires root != "" && GoodDir(c.dir)
    ensures var r := Answer(Rnto(root, c, line, env), Renamed, errors); Shape(c, r) && Contained(root, c, r)
  {
    hide Connect, Within, GoodDir, HostPath, Answer, Shape, Rooted;
    GoodIsRooted(c.dir);
    if |line| >= 5 {
      Located(root, c, line[5..]);
    }
    AnswerShape(root, c, Rnto(root, c, line, env), Renamed, errors);
  }

  lemma GoodIsRooted(d: string)
    requires GoodDir(d)
    ensures Rooted(d)
  {
  }

  lemma Located(root: string, c: Client, name: string)
    requires root != "" && GoodDir(c.dir)
    ensures Connect(c.dir, name).Some? ==>
              GoodDir(Connect(c.dir, name).value) && Within(root, HostPath(root, Connect(c.dir, name).value))
  {
    if Connect(c.dir, name).Some? {
      ConnectIsGood(c.dir, name);
      NormalStaysWithin(root, Connect(c.dir, name).value);
    }
  }

  lemma MkdShape(root: string, c: Client, line: string, env: Env, errors: map<int, nat>)
    requires GoodDir(c.dir)
    ensures var r := Answer(Mkd(c, line, env), Made, errors); Shape(c, r) && Contained(root, c, r)
  {
    hide Within, GoodDir, Answer, Shape;
    AnswerShape(root, c, Mkd(c, line, env), Made, errors);
  }

  lemma QuitShape(root: string, c: Client, line: string, errors: map<int, nat>)
    requires GoodDir(c.dir)
    ensures var r := Answer(Quit(c, line), Goodbye, errors); Shape(c, r) && Contained(root, c, r)
  {
    hide Within, GoodDir, Answer, Shape;
    AnswerShape(root, c, Quit(c, line), Goodbye, errors);
  }

  /** PORT and PASV set the mode when they succeed, and only then. */
  lemma PortShape(root: string, c: Client, line: string)
    requires GoodDir(c.dir)
    ensures var r := Answer(Port(c, line), PortOk, map[-1 := 504]); Shape(c, r) && Contained(root, c, r)
  {
    AnswerOne(Port(c, line), PortOk, map[-1 := 504]);
    hide PortTarget, Within, GoodDir, Answer;
  }

  lemma PasvShape(root: string, c: Client, line: string, env: Env, text: string)
    requires GoodDir(c.dir)
    ensures var r := Answer(Pasv(c, line, env), Passive(text), map[-1 := 504, -2 := 502]);
            Shape(c, r) && Contained(root, c, r)
  {
    AnswerOne(Pasv(c, line, env), Passive(text), map[-1 := 504, -2 := 502]);
    hide Within, GoodDir, Answer;
  }

  lemma AnswerOne(r: Result, ok: Msg, errors: map<int, nat>)
    requires r.notes == [] && (r.ret == 0 || r.ret in errors)
    ensures Answer(r, ok, errors) == r.(notes := [Say(if r.ret == 0 then ok else Refused(errors[r.ret]))])
  {
  }

  /** Every command of a logged-in session has one of the shapes, and stays within the root. */
  lemma ServeShape(root: string, c: Client, line: string, env: Env)
    requires root != "" && GoodDir(c.dir)
    ensures Shape(c, Serve(root, c, line, env)) && Contained(root, c, Serve(root, c, line, env))
  {
    assert Rooted(c.dir);
    hide VerbOf, Shape, Contained, Calm, BeginTransfer, List, Cwd, Rmd, Rnfr, Rnto, Mkd, Pasv, Port, Quit, Answer, AnswerErrors, GoodDir, Printed;
    match VerbOf(line) {
      case SYST => PlainShape(root, c, c, if |line| > 4 then Refused(504) else System);
      case TYPE =>
        if |line| != 6 {
          PlainShape(root, c, c, Refused(501));
        } else {
          var r := Type(c, line);
          PlainShape(root, c, r.client, if r.ret == -1 then Refused(504) else TypeSet(r.client.bytes));
        }
      case PORT => PortShape(root, c, line);
      case PASV => PasvShape(root, c, line, env, if WellFormed(env.here) then Printed(env.here) else "");
      case RETR => TransferShape(root, c, line, env, Send, map[-1 := 504, -2 := 502, -3 := 425]);
      case STOR => TransferShape(root, c, line, env, Receive, map[-1 := 504, -2 := 502, -3 := 425]);
      case QUIT => QuitShape(root, c, line, map[-1 := 500]);
      case CWD => CwdShape(root, c, line, env, map[-1 := 504, -2 := 504]);
      case PWD => PlainShape(root, c, c, if |line| != 3 then Refused(504) else DirIs(c.dir));
      case MKD => MkdShape(root, c, line, env, map[-1 := 504, -2 := 502]);
      case LIST => ListShape(root, c, env, map[-1 := 550]);
      case RMD => RmdShape(root, c, line, env, map[-1 := 504, -2 := 502]);
      case RNFR => RnfrShape(root, c, line, env, map[-1 := 504, -2 := 502]);
      case RNTO => RntoShape(root, c, line, env, map[-1 := 504, -2 := 502]);
      case _ => PlainShape(root, c, c, Refused(500));
    }
  }

  /** No transfer or list is begun. */
  predicate OpensNothing(r: Result) {
    r.spawn == None && (r.notes == [] || r.notes[0] != Say(Opening))
  }

  lemma AnswerOpensNothing(r: Result, ok: Msg, errors: map<int, nat>)
    requires OpensNothing(r) && ok != Opening
    ensures OpensNothing(Answer(r, ok, errors))
  {
  }

  lemma ShortOpensNothing(c: Client, line: string, env: Env, kind: Kind, errors: map<int, nat>)
    requires |line| < 6
    ensures OpensNothing(AnswerErrors(BeginTransfer(c, line, env, kind), errors))
  {
  }

  /** Commands that do not use a data connection do not begin a transfer or list. */
  lemma ServeOpensNothing(root: string, c: Client, line: string, env: Env)
    requires root != "" && Rooted(c.dir) && !UsesConnection(line)
    ensures OpensNothing(Serve(root, c, line, env))
  {
    hide VerbOf, Connect, PortTarget, HostPath, Rooted, Printed, WellFormed, Answer, AnswerErrors, BeginTransfer;
    match VerbOf(line) {
      case PORT => AnswerOpensNothing(Port(c, line), PortOk, map[-1 := 504]);
      case PASV =>
        var text := if WellFormed(env.here) then Printed(env.here) else "";
        AnswerOpensNothing(Pasv(c, line, env), Passive(text), map[-1 := 504, -2 := 502]);
      case RETR => ShortOpensNothing(c, line, env, Send, map[-1 := 504, -2 := 502, -3 := 425]);
      case STOR => ShortOpensNothing(c, line, env, Receive, map[-1 := 504, -2 := 502, -3 := 425]);
      case QUIT => AnswerOpensNothing(Quit(c, line), Goodbye, map[-1 := 500]);
      case CWD => AnswerOpensNothing(Cwd(root, c, line, env), DirChanged, map[-1 := 504, -2 := 504]);
      case MKD => AnswerOpensNothing(Mkd(c, line, env), Made, map[-1 := 504, -2 := 502]);
      case RMD => AnswerOpensNothing(Rmd(root, c, line, env), Removed, map[-1 := 504, -2 := 502]);
      case RNFR => AnswerOpensNothing(Rnfr(root, c, line, env), RenameReady, map[-1 := 504, -2 := 502]);
      case RNTO => AnswerOpensNothing(Rnto(root, c, line, env), Renamed, map[-1 := 504, -2 := 502]);
      case _ =>
    }
  }

  /** A command that changes a mode only by announcing a data connection. */
  predicate QuietShape(c: Client, r: Result) {
    && r.spawn == None && r.client.status == c.status
    && (|| (Plain(r.notes) && r.client.mode == c.mode)
        || (r.notes == [Say(PortOk)] && r.client.mode == PortMode)
        || (|r.notes| == 1 && r.notes[0].Say? && r.notes[0].msg.Passive? && r.client.mode == PasvMode))
  }

  lemma ServeQuiet(root: string, c: Client, line: string, env: Env)
    requires root != "" && GoodDir(c.dir) && !UsesConnection(line)
    ensures QuietShape(c, Serve(root, c, line, env))
  {
    assert Rooted(c.dir);
    hide GoodDir, Serve, UsesConnection, Contained, Plain;
    ServeShape(root, c, line, env);
    ServeOpensNothing(root, c, line, env);
  }

  lemma PlainShape(root: string, c: Client, c': Client, m: Msg)
    requires GoodDir(c.dir) && PlainNote(Say(m)) && c' == c.(bytes := c'.bytes)
    ensures Shape(c, Reply(c', m)) && Contained(root, c, Reply(c', m))
  {
    hide GoodDir;
  }

  /** Only the accepted USER leaves the first state. */
  predicate ConnectedShape(c: Client, r: Result) {
    r.spawn == None
    && if r.notes == [Say(UserOk)] then r.client == c.(status := Password) else Plain(r.notes) && r.client == c
  }

  /** Only the accepted PASS leaves the second. */
  predicate PasswordShape(c: Client, r: Result) {
    r.spawn == None
    && if r.notes == [Say(PassOk)] then r.client == c.(status := Available) else Plain(r.notes) && r.client == c
  }

  lemma UserShape(root: string, c: Client, line: string)
    requires GoodDir(c.dir)
    ensures var r := Answer(User(c, line), UserOk, map[-1 := 504, -2 := 504]);
            ConnectedShape(c, r) && Contained(root, c, r)
  {
    AnswerOne(User(c, line), UserOk, map[-1 := 504, -2 := 504]);
    hide GoodDir, Answer;
  }

  lemma PassShape(root: string, c: Client, line: string)
    requires GoodDir(c.dir)
    ensures var r := Answer(Pass(c, line), PassOk, map[-1 := 504, -2 := 504]);
            PasswordShape(c, r) && Contained(root, c, r)
  {
    AnswerOne(Pass(c, line), PassOk, map[-1 := 504, -2 := 504]);
    hide GoodDir, Answer, LooksLikeMail;
  }

  lemma RefusedShape(root: string, c: Client, code: nat)
    requires GoodDir(c.dir)
    ensures var r := Reply(c, Refused(code)); ConnectedShape(c, r) && PasswordShape(c, r) && Contained(root, c, r)
  {
    hide GoodDir;
    var r := Reply(c, Refused(code));
    assert r.notes[0] == Say(Refused(code));
  }

  /**
   The whole dispatch: without a login only the accepted USER and PASS change the record, and
   to exactly the next status; with one, the shapes above; in a transfer, nothing.
   */
  lemma InterpretShape(root: string, c: Client, snapshot: Status, line: string, env: Env)
    requires root != "" && GoodDir(c.dir)
    ensures var r := Interpret(root, c, snapshot, line, env);
            && Contained(root, c, r)
            && match snapshot
               case Available => Shape(c, r)
               case Connected => ConnectedShape(c, r)
               case Password => PasswordShape(c, r)
               case _ => r == Only(0, c)
  {
    ServeShape(root, c, line, env);
    UserShape(root, c, line);
    PassShape(root, c, line);
    RefusedShape(root, c, 500);
    RefusedShape(root, c, 503);
    hide VerbOf, GoodDir, Serve, User, Pass, Answer, Shape, ConnectedShape, PasswordShape, Reply;
  }
}
