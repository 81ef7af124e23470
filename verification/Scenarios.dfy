/**
 Runs of the state machine that exist: a client that logs in and sends PORT and RETR gets its
 file and its 226, whatever the file; a round always comes to its end; a worker can always
 finish. Exactness.dfy builds on them.
 */
module Scenarios {
  import opened Wrappers
  import C = Clients
  import opened Commands
  import opened Paths
  import opened HostPort
  import Decimal
  import opened Descriptors
  import opened Server
  import opened Conversations
  import opened Directories
  import opened Rounds
  import opened Transfers

  /** Some run that keeps the rule leads from `s` to `t`. */
  ghost predicate Reaches(rule: Rule, s: Server, t: Server) {
    exists acts :: LeadsUnder(rule, s, acts, t)
  }

  lemma Onward(rule: Rule, s: Server, m: Server, t: Server)
    requires Reaches(rule, s, m) && Reaches(rule, m, t)
    ensures Reaches(rule, s, t)
  {
    var a :| LeadsUnder(rule, s, a, m);
    var b :| LeadsUnder(rule, m, b, t);
    UnderConcat(rule, s, a, m, b, t);
  }

  lemma OneStep(rule: Rule, s: Server, a: Action)
    requires Enabled(s, a) && Keeps(rule, s, a)
    ensures Reaches(rule, s, Next(s, a))
  {
    assert [a][1..] == [];
    assert LeadsUnder(rule, s, [a], Next(s, a));
  }

  lemma NoStep(rule: Rule, s: Server)
    ensures Reaches(rule, s, s)
  {
    assert LeadsUnder(rule, s, [], s);
  }

  // ---------- One round with one ready descriptor ----------

  /** The cursor passes descriptors that are not ready. */
  lemma {:induction false} SkipTo(rule: Rule, s: Server, ready: set<nat>, j: nat, done: seq<nat>, k: nat)
    requires s.loop == Scanning(ready, j, done) && j <= k <= s.table.maxFd + 1 && !rule.Eager?
    requires forall f | f in ready :: f < j || f >= k
    ensures Reaches(rule, s, s.(loop := Scanning(ready, k, done)))
    decreases k - j
  {
    if j == k {
      NoStep(rule, s);
    } else {
      OneStep(rule, s, Skip);
      var m := Next(s, Skip);
      SkipTo(rule, m, ready, j + 1, done, k);
      Onward(rule, s, m, m.(loop := Scanning(ready, k, done)));
    }
  }

  /** From select to the one ready descriptor. */
  lemma ComeTo(rule: Rule, s: Server, fd: nat)
    requires s.loop.Selecting? && fd in s.table.fds && fd <= s.table.maxFd && !rule.Eager?
    ensures Reaches(rule, s, s.(loop := Scanning({fd}, fd, [])))
  {
    OneStep(rule, s, Select({fd}));
    var m := Next(s, Select({fd}));
    SkipTo(rule, m, {fd}, 0, [], fd);
    Onward(rule, s, m, m.(loop := Scanning({fd}, fd, [])));
  }

  /** From behind the one ready descriptor back to select. */
  lemma GoBack(rule: Rule, s: Server, fd: nat)
    requires s.loop == Scanning({fd}, fd + 1, [fd]) && fd <= s.table.maxFd && !rule.Eager?
    ensures Reaches(rule, s, s.(loop := Selecting))
  {
    var k := s.table.maxFd + 1;
    SkipTo(rule, s, {fd}, fd + 1, [fd], k);
    var m := s.(loop := Scanning({fd}, k, [fd]));
    OneStep(rule, m, EndRound);
    Onward(rule, s, m, Next(m, EndRound));
  }

  lemma ConnectOne(rule: Rule, s: Server, conn: nat)
    requires s.loop.Selecting? && Tight(s.table, s.listenFd) && !rule.Eager?
    requires conn !in s.table.fds && s.listenFd < conn < |s.clients|
    ensures Reaches(rule, s, s.(clients := s.clients[conn := Greeted(s.clients[conn])], table := Add(s.table, conn),
                                log := s.log + Stamp(conn, [C.Say(C.Welcome)])))
  {
    var fd := s.listenFd;
    ComeTo(rule, s, fd);
    var m := s.(loop := Scanning({fd}, fd, []));
    OneStep(rule, m, Accept(conn));
    var n := Next(m, Accept(conn));
    assert [] + [fd] == [fd];
    GoBack(rule, n, fd);
    Onward(rule, s, m, n);
    Onward(rule, s, n, n.(loop := Selecting));
  }

  /** What a command line does to the server when nobody else moves. */
  function Serviced(s: Server, fd: nat, line: string, env: C.Env): Server
    requires fd < |s.clients| && s.root != "" && Rooted(s.clients[fd].dir)
  {
    var r := Step(s.root, s.clients[fd], line, env);
    s.(clients := s.clients[fd := r.client],
       workers := if r.spawn.Some? then s.workers + [NewWorker(fd, r.spawn.value, env.source)] else s.workers,
       log := s.log + Stamp(fd, r.notes))
  }

  /** A session in use whose record is `c` and whose descriptor the next select may report. */
  ghost predicate Idle(s: Server, fd: nat, c: C.Client, ws: seq<Worker>) {
    && s.loop.Selecting? && s.root != "" && fd in s.table.fds && fd <= s.table.maxFd && fd != s.listenFd
    && fd < |s.clients| && s.clients[fd] == c && s.workers == ws
  }

  /** The rule lets a command line of `fd` be read. */
  ghost predicate MayRead(rule: Rule, ws: seq<Worker>, fd: nat) {
    rule.Answered? || rule.Orderly? || (rule.Prompt? && !HasSpawned(ws, fd))
  }

  lemma ServeOne(rule: Rule, s: Server, fd: nat, c: C.Client, line: string, env: C.Env)
    requires Idle(s, fd, c, s.workers) && c.status != C.Disconnected && Rooted(c.dir)
    requires NotBlank(line) && |line| + 2 <= MAX_BUF && MayRead(rule, s.workers, fd)
    ensures Reaches(rule, s, Serviced(s, fd, line, env))
  {
    hide C.Interpret, NotBlank, HasSpawned, HasOutstanding;
    ComeTo(rule, s, fd);
    var m := s.(loop := Scanning({fd}, fd, []));
    OneStep(rule, m, Recv(line));
    var d := Next(m, Recv(line));
    OneStep(rule, d, Act(env));
    var n := Next(d, Act(env));
    assert [] + [fd] == [fd];
    assert n.(loop := Selecting) == Serviced(s, fd, line, env);
    GoBack(rule, n, fd);
    Onward(rule, s, m, d);
    Onward(rule, s, d, n);
    Onward(rule, s, n, n.(loop := Selecting));
  }

  lemma Sends(rule: Rule, s: Server, fd: nat, c: C.Client, ws: seq<Worker>, line: string, env: C.Env) returns (t: Server)
    requires Idle(s, fd, c, ws) && c.status != C.Disconnected && Rooted(c.dir)
    requires NotBlank(line) && |line| + 2 <= MAX_BUF && MayRead(rule, ws, fd)
    ensures var r := Step(s.root, c, line, env);
            && Idle(t, fd, r.client, if r.spawn.Some? then ws + [NewWorker(fd, r.spawn.value, env.source)] else ws)
            && t.log == s.log + Stamp(fd, r.notes) && t.root == s.root && t.listenFd == s.listenFd
    ensures Reaches(rule, s, t)
  {
    hide Step, NotBlank, MayRead, Reaches;
    ServeOne(rule, s, fd, c, line, env);
    t := Serviced(s, fd, line, env);
  }

  // ---------- The rest of a round ----------

  /** A line that is no command changes no session, whatever its state. */
  lemma NonsenseLine(root: string, c: C.Client, env: C.Env)
    requires root != "" && Rooted(c.dir)
    ensures Step(root, c, "?", env).client == c && Step(root, c, "?", env).spawn == None
  {
    WordFirst("?", "");
    assert "?" + "" == "?";
    hide FirstWord;
  }

  /** A ready session takes its turn without any effect but a reply. */
  lemma IdleTurn(rule: Rule, s: Server, env: C.Env) returns (t: Server)
    requires Kept(s) && AtClient(s) && s.loop.cursor != rule.fd && !rule.Eager?
    ensures Reaches(rule, s, t)
    ensures t.loop.Scanning? && t == s.(loop := Scanning(s.loop.ready, s.loop.cursor + 1, t.loop.done), log := t.log)
  {
    var g, line := s.loop.cursor, "?";
    assert NotBlank(line) by { assert line[0] != ' '; }
    assert GoodClient(s.root, s.clients[g]);
    NonsenseLine(s.root, s.clients[g], env);
    hide C.Interpret, Kept, NotBlank, HasSpawned, HasOutstanding;
    OneStep(rule, s, Recv(line));
    var d := Next(s, Recv(line));
    OneStep(rule, d, Act(env));
    t := Next(d, Act(env));
    assert s.clients[g := s.clients[g]] == s.clients;
    Onward(rule, s, d, t);
  }

  /** Behind the listening descriptor a round comes to its end, and only the log need have grown. */
  lemma {:induction false} EndsRound(rule: Rule, s: Server, env: C.Env) returns (t: Server)
    requires Kept(s) && s.loop.Scanning? && s.loop.cursor > s.listenFd && s.loop.cursor > rule.fd && !rule.Eager?
    ensures Reaches(rule, s, t) && t == s.(loop := Selecting, log := t.log)
    decreases MAX_CLIENT - s.loop.cursor
  {
    var g := s.loop.cursor;
    if g > s.table.maxFd {
      OneStep(rule, s, EndRound);
      t := Next(s, EndRound);
    } else {
      var m := PassesOne(rule, s, env);
      hide Kept, Reaches;
      t := EndsRound(rule, m, env);
      Onward(rule, s, m, t);
    }
  }

  lemma PassesOne(rule: Rule, s: Server, env: C.Env) returns (m: Server)
    requires Kept(s) && s.loop.Scanning? && s.listenFd < s.loop.cursor <= s.table.maxFd
    requires s.loop.cursor > rule.fd && !rule.Eager?
    ensures Reaches(rule, s, m) && Kept(m) && m.loop.Scanning? && s.loop.cursor < MAX_CLIENT
    ensures m == s.(loop := Scanning(s.loop.ready, s.loop.cursor + 1, m.loop.done), log := m.log)
  {
    if s.loop.cursor in s.loop.ready {
      m := IdleTurn(rule, s, env);
    } else {
      OneStep(rule, s, Skip);
      m := Next(s, Skip);
    }
    hide Kept;
    StaysKept(rule, s, m);
  }

  lemma StaysKept(rule: Rule, s: Server, t: Server)
    requires Kept(s) && Reaches(rule, s, t)
    ensures Kept(t)
  {
    var acts :| LeadsUnder(rule, s, acts, t);
    UnderLeads(rule, s, acts, t);
    AlwaysKept(s, acts, t);
  }

  // ---------- A worker that nothing disturbs ----------

  function MovedServer(s: Server, i: nat, move: Move): Server
    requires Enabled(s, Work(i, move))
  {
    var w := s.workers[i];
    s.(clients := s.clients[w.fd := MovedClient(s.clients[w.fd], move)],
       workers := s.workers[i := Moved(w, move)],
       log := s.log + Stamp(w.fd, MoveNotes(move)))
  }

  lemma MoveOne(rule: Rule, s: Server, i: nat, move: Move)
    requires Enabled(s, Work(i, move)) && !rule.Eager?
    ensures Reaches(rule, s, MovedServer(s, i, move))
  {
    OneStep(rule, s, Work(i, move));
  }

  function WithWorker(s: Server, i: nat, w: Worker): Server
    requires i < |s.workers|
  {
    s.(workers := s.workers[i := w])
  }

  /** A move of data changes nothing but its worker. */
  lemma MoveData(rule: Rule, s: Server, i: nat, move: Move)
    requires i < |s.workers| && s.workers[i].fd < |s.clients| && CanMove(s.workers[i], move) && !rule.Eager?
    requires move.Fill? || move.Drain? || move.Store?
    ensures Reaches(rule, s, WithWorker(s, i, Moved(s.workers[i], move)))
  {
    MoveOne(rule, s, i, move);
    var w := s.workers[i];
    assert s.clients[w.fd := s.clients[w.fd]] == s.clients;
    assert s.log + Stamp(w.fd, []) == s.log;
  }

  /** The next move of data of a worker that has more to do. */
  function NextMove(w: Worker): Move
    requires w.pos <= |w.source|
  {
    if w.kind == C.Receive then Store(Min(MAX_BUF, |w.source| - w.pos))
    else if w.chunk != [] then Drain(|w.chunk|)
    else Fill
  }

  lemma NextMoveWorks(w: Worker)
    requires Faithful(w) && w.phase == Copying && !CanMove(w, Finish)
    ensures CanMove(w, NextMove(w)) && Faithful(Moved(w, NextMove(w)))
    ensures var v := Moved(w, NextMove(w));
            v == w.(pos := v.pos, chunk := v.chunk, eof := v.eof, sink := v.sink)
    ensures Left(Moved(w, NextMove(w))) < Left(w)
  {
    FaithfulMove(w, NextMove(w));
  }

  /** How much a worker has still to do. */
  function Left(w: Worker): int {
    3 * (|w.source| - w.pos) + (if w.eof then 0 else 2) + if w.chunk == [] then 0 else 1
  }

  /** A copying worker can always come to the end of its data. */
  lemma {:induction false} CopyAll(rule: Rule, s: Server, i: nat) returns (w: Worker)
    requires i < |s.workers| && s.workers[i].fd < |s.clients| && !rule.Eager?
    requires Faithful(s.workers[i]) && s.workers[i].phase == Copying
    ensures Reaches(rule, s, WithWorker(s, i, w)) && CanMove(w, Finish)
    ensures w.fd == s.workers[i].fd && w.kind == s.workers[i].kind && w.source == s.workers[i].source && w.sink == w.source
    decreases Left(s.workers[i])
  {
    var v := s.workers[i];
    if CanMove(v, Finish) {
      w := v;
      NoStep(rule, s);
      assert s == WithWorker(s, i, w);
      assert v.sink + [] == v.sink && v.source[..|v.source|] == v.source;
    } else {
      NextMoveWorks(v);
      var next := NextMove(v);
      MoveData(rule, s, i, next);
      hide Reaches, CanMove, NextMove, Faithful, Moved;
      var m := WithWorker(s, i, Moved(v, next));
      w := CopyAll(rule, m, i);
      assert WithWorker(m, i, w) == WithWorker(s, i, w);
      Onward(rule, s, m, WithWorker(s, i, w));
    }
  }

  /** A busy worker that has not begun can begin. */
  lemma Begins(rule: Rule, s: Server, i: nat) returns (t: Server, w: Worker)
    requires i < |s.workers| && s.workers[i].fd < |s.clients| && !rule.Eager?
    requires Faithful(s.workers[i]) && Busy(s.workers[i])
    ensures Reaches(rule, s, t) && w == s.workers[i].(phase := Copying) && Faithful(w)
    ensures t == s.(clients := t.clients, workers := s.workers[i := w])
    ensures var c := s.clients[w.fd];
            t.clients == s.clients[w.fd := if s.workers[i].phase == Spawned then C.Started(c) else c]
  {
    var v := s.workers[i];
    w := v.(phase := Copying);
    if v.phase == Spawned {
      MoveOne(rule, s, i, Begin);
      t := MovedServer(s, i, Begin);
      assert s.log + Stamp(v.fd, []) == s.log;
    } else {
      NoStep(rule, s);
      t := s;
    }
  }

  lemma Finishes(rule: Rule, s: Server, i: nat)
    requires i < |s.workers| && s.workers[i].fd < |s.clients| && !rule.Eager? && CanMove(s.workers[i], Finish)
    ensures var w := s.workers[i].(phase := Sent226);
            Reaches(rule, s, s.(workers := s.workers[i := w], log := s.log + Stamp(w.fd, [C.Say(C.Complete)])))
  {
    MoveOne(rule, s, i, Finish);
    var w := s.workers[i];
    assert s.clients[w.fd := s.clients[w.fd]] == s.clients;
  }

  /** A worker that is still busy can always send its 226, with all of its data moved. */
  lemma Completes(rule: Rule, s: Server, i: nat) returns (t: Server, w: Worker)
    requires i < |s.workers| && s.workers[i].fd < |s.clients| && !rule.Eager?
    requires Faithful(s.workers[i]) && Busy(s.workers[i])
    ensures Reaches(rule, s, t)
    ensures w.phase == Sent226 && w.fd == s.workers[i].fd && w.kind == s.workers[i].kind
    ensures w.source == s.workers[i].source == w.sink
    ensures t == s.(clients := t.clients, workers := s.workers[i := w], log := s.log + Stamp(w.fd, [C.Say(C.Complete)]))
    ensures var c := s.clients[w.fd];
            t.clients == s.clients[w.fd := if s.workers[i].phase == Spawned then C.Started(c) else c]
  {
    var m, v := Begins(rule, s, i);
    hide Reaches, Faithful, CanMove;
    var u := CopyAll(rule, m, i);
    var n := WithWorker(m, i, u);
    Finishes(rule, n, i);
    w := u.(phase := Sent226);
    t := n.(workers := n.workers[i := w], log := n.log + Stamp(w.fd, [C.Say(C.Complete)]));
    assert t.workers == s.workers[i := w];
    Onward(rule, s, m, n);
    Onward(rule, s, n, t);
  }

  // ---------- A session ----------

  /** The system answers every call with success. */
  function Willing(here: Endpoint, source: seq<int>): C.Env {
    C.Env(true, true, true, true, true, true, true, true, true, true, true, 5, here, source)
  }

  /** What the client says: who it is, where it listens, and which file it wants. */
  datatype Wish = Wish(mail: string, e: Endpoint, name: string)

  predicate Proper(x: Wish) {
    && C.LooksLikeMail(x.mail) && |x.mail| + 7 <= MAX_BUF && x.name != "" && |x.name| + 7 <= MAX_BUF
    && WellFormed(x.e) && x.e.h1 <= 252 && x.e.port <= 65279
  }

  lemma VerbNotBlank(verb: string, arg: string)
    requires verb != "" && verb[0] != ' '
    ensures NotBlank(CommandLine(verb, arg))
  {
    assert CommandLine(verb, arg)[0] == verb[0];
  }

  /** From a greeted session to one that has logged in. */
  lemma LogsIn(rule: Rule, s: Server, fd: nat, ws: seq<Worker>, x: Wish, env: C.Env) returns (t: Server)
    requires Idle(s, fd, Greeted(C.EMPTY), ws) && Proper(x) && MayRead(rule, ws, fd)
    ensures Reaches(rule, s, t) && Idle(t, fd, Greeted(C.EMPTY).(status := C.Available), ws)
    ensures t.root == s.root && t.listenFd == s.listenFd
  {
    var c := Greeted(C.EMPTY);
    LoginConversation(s.root, c, x.mail, env);
    VerbNotBlank("USER", "anonymous");
    VerbNotBlank("PASS", x.mail);
    hide Step, NotBlank, C.LooksLikeMail, Reaches, Idle, MayRead;
    var m := Sends(rule, s, fd, c, ws, CommandLine("USER", "anonymous"), env);
    t := Sends(rule, m, fd, c.(status := C.Password), ws, CommandLine("PASS", x.mail), env);
    Onward(rule, s, m, t);
  }

  /** The printed endpoint is short. */
  lemma PrintedIsShort(e: Endpoint)
    requires WellFormed(e)
    ensures |Printed(e)| <= 23
  {
    OctetIsShort(e.h1);
    OctetIsShort(e.h2);
    OctetIsShort(e.h3);
    OctetIsShort(e.h4);
    OctetIsShort(e.port / 256);
    OctetIsShort(e.port % 256);
    hide Decimal.Dec;
  }

  lemma OctetIsShort(n: nat)
    requires n <= 255
    ensures |Decimal.Dec(n)| <= 3
  {
    Decimal.DecMonotone(n, 255);
    assert |Decimal.Dec(25)| == 2;
  }

  lemma SaysPort(rule: Rule, s: Server, fd: nat, c: C.Client, ws: seq<Worker>, x: Wish, env: C.Env) returns (t: Server)
    requires Idle(s, fd, c, ws) && c.status == C.Available && Rooted(c.dir) && Proper(x) && MayRead(rule, ws, fd)
    ensures Reaches(rule, s, t) && Idle(t, fd, c.(target := x.e, mode := C.PortMode), ws)
    ensures t.root == s.root && t.listenFd == s.listenFd
  {
    var text := Printed(x.e);
    PrintedIsShort(x.e);
    PrintThenPort(x.e);
    PortLineText(text);
    VerbNotBlank("PORT", text);
    hide Step, NotBlank, C.LooksLikeMail, Reaches, PortTarget, Printed, MayRead, Rooted;
    PortLine(s.root, c, text, env);
    t := Sends(rule, s, fd, c, ws, CommandLine("PORT", text), env);
  }

  /** The command that starts a worker of a kind. */
  function Starts(kind: C.Kind): string {
    if kind == C.Send then "RETR" else "STOR"
  }

  lemma SaysTransfer(rule: Rule, s: Server, fd: nat, c: C.Client, ws: seq<Worker>, x: Wish, kind: C.Kind, source: seq<int>)
    returns (t: Server)
    requires Idle(s, fd, c, ws) && c.status == C.Available && c.mode == C.PortMode && Rooted(c.dir) && Proper(x)
    requires MayRead(rule, ws, fd)
    ensures Reaches(rule, s, t) && Idle(t, fd, c.(dataFd := 5), ws + [NewWorker(fd, kind, source)])
    ensures t.root == s.root && t.listenFd == s.listenFd
  {
    var env := Willing(x.e, source);
    VerbNotBlank("RETR", x.name);
    VerbNotBlank("STOR", x.name);
    hide Step, NotBlank, C.LooksLikeMail, Reaches, WellFormed, MayRead, Rooted;
    if kind == C.Send {
      RetrLine(s.root, c, x.name, env);
    } else {
      StorLine(s.root, c, x.name, env);
    }
    t := Sends(rule, s, fd, c, ws, CommandLine(Starts(kind), x.name), env);
  }

  lemma VerbOfList()
    ensures VerbOf("LIST") == LIST && NotBlank("LIST")
  {
    WordFirst("LIST", "");
    assert "LIST" + "" == "LIST" && "LIST"[0] != ' ';
    hide FirstWord;
  }

  lemma ListLine(root: string, c: C.Client, line: string, here: Endpoint, source: seq<int>)
    requires root != "" && Rooted(c.dir) && c.status == C.Available && c.mode != C.NoMode && VerbOf(line) == LIST
    ensures var r := Step(root, c, line, Willing(here, source));
            && r.client == c.(dataFd := 0, mode := C.NoMode) && r.spawn == None
            && |r.notes| == 3 && r.notes[2] == C.Say(C.Complete)
  {
    hide VerbOf;
  }

  lemma TransferLine(root: string, c: C.Client, line: string, here: Endpoint, source: seq<int>)
    requires root != "" && Rooted(c.dir) && c.status == C.Available && c.mode != C.NoMode
    requires (VerbOf(line) == RETR || VerbOf(line) == STOR) && |line| >= 6
    ensures var r := Step(root, c, line, Willing(here, source));
            r.client == c.(dataFd := 5) && r.spawn.Some?
  {
    hide VerbOf;
  }

  /** From a greeted session to the worker of a RETR or STOR. */
  lemma Asks(rule: Rule, s: Server, fd: nat, ws: seq<Worker>, x: Wish, kind: C.Kind, source: seq<int>)
    returns (t: Server, c: C.Client)
    requires Idle(s, fd, Greeted(C.EMPTY), ws) && Proper(x) && MayRead(rule, ws, fd)
    ensures Reaches(rule, s, t) && Idle(t, fd, c, ws + [NewWorker(fd, kind, source)])
    ensures c.status == C.Available && c.mode == C.PortMode && c.dir == "/"
    ensures t.root == s.root && t.listenFd == s.listenFd
  {
    var env := Willing(x.e, source);
    var s1 := LogsIn(rule, s, fd, ws, x, env);
    hide Reaches, Proper, Idle, MayRead;
    c := Greeted(C.EMPTY).(status := C.Available);
    var s2 := SaysPort(rule, s1, fd, c, ws, x, env);
    c := c.(target := x.e, mode := C.PortMode);
    t := SaysTransfer(rule, s2, fd, c, ws, x, kind, source);
    c := c.(dataFd := 5);
    Onward(rule, s, s1, s2);
    Onward(rule, s, s2, t);
  }

  /** The start, with a client accepted on `fd`. */
  lemma Connects(rule: Rule, s: Server, fd: nat) returns (t: Server)
    requires Init(s) && s.listenFd < fd < MAX_CLIENT && !rule.Eager?
    ensures Reaches(rule, s, t) && Idle(t, fd, Greeted(C.EMPTY), []) && t.root == s.root && t.listenFd == s.listenFd
  {
    ConnectOne(rule, s, fd);
    var c := Greeted(C.EMPTY);
    t := s.(clients := s.clients[fd := c], table := Add(s.table, fd), log := s.log + Stamp(fd, [C.Say(C.Welcome)]));
  }

  /** From the start to the worker of a RETR or STOR. */
  lemma AsksFirst(rule: Rule, s: Server, fd: nat, x: Wish, kind: C.Kind, source: seq<int>) returns (t: Server, c: C.Client)
    requires Init(s) && s.listenFd < fd < MAX_CLIENT && Proper(x) && !rule.Eager?
    ensures Reaches(rule, s, t) && Idle(t, fd, c, [NewWorker(fd, kind, source)])
    ensures c.status == C.Available && c.mode == C.PortMode && c.dir == "/"
  {
    var m := Connects(rule, s, fd);
    hide Reaches, Proper, Idle, Init;
    t, c := Asks(rule, m, fd, [], x, kind, source);
    assert [] + [NewWorker(fd, kind, source)] == [NewWorker(fd, kind, source)];
    Onward(rule, s, m, t);
  }

  /** The one worker of `fd` has moved all of `source` and sent its 226, and its session is in the transfer. */
  ghost predicate Delivered(t: Server, fd: nat, kind: C.Kind, source: seq<int>) {
    && |t.workers| == 1 && t.workers[0].fd == fd && t.workers[0].kind == kind && t.workers[0].phase == Sent226
    && t.workers[0].source == source == t.workers[0].sink
    && t.log != [] && t.log[|t.log| - 1] == Event(fd, C.Say(C.Complete))
    && t.loop.Selecting? && fd in t.table.fds && fd <= t.table.maxFd && fd != t.listenFd
    && fd < |t.clients| && t.clients[fd].status == C.Transfer
  }

  lemma Delivers(s: Server, fd: nat, x: Wish, kind: C.Kind, source: seq<int>) returns (acts: seq<Action>, t: Server)
    requires Init(s) && s.listenFd < fd < MAX_CLIENT && Proper(x)
    ensures LeadsUnder(Prompt(fd), s, acts, t) && Delivered(t, fd, kind, source)
  {
    var rule := Prompt(fd);
    var m, c := AsksFirst(rule, s, fd, x, kind, source);
    var w;
    t, w := Completes(rule, m, 0);
    Onward(rule, s, m, t);
    acts :| LeadsUnder(rule, s, acts, t);
  }

  /**
   From the start, for every client that logs in with a mail address and whatever the file:
   there is a run, prompt on its descriptor, in which its RETR puts the whole file on the data
   channel and gets its 226.
   */
  lemma FileDelivered(s: Server, fd: nat, x: Wish, contents: seq<int>) returns (acts: seq<Action>, t: Server)
    requires Init(s) && s.listenFd < fd < MAX_CLIENT && Proper(x)
    ensures LeadsUnder(Prompt(fd), s, acts, t) && Delivered(t, fd, C.Send, contents)
  {
    acts, t := Delivers(s, fd, x, C.Send, contents);
  }

  /** And one in which its STOR stores all the bytes that arrive on the data channel, and gets its 226. */
  lemma FileStored(s: Server, fd: nat, x: Wish, arriving: seq<int>) returns (acts: seq<Action>, t: Server)
    requires Init(s) && s.listenFd < fd < MAX_CLIENT && Proper(x)
    ensures LeadsUnder(Prompt(fd), s, acts, t) && Delivered(t, fd, C.Receive, arriving)
  {
    acts, t := Delivers(s, fd, x, C.Receive, arriving);
  }
}
