/**
 The server as a state machine: the main loop (operator.c:53-140, with the dispatch of
 interpreter.c in two steps, the status snapshot and the act on it) interleaved in every
 possible way with the detached workers (ftputils.c:137-216).

 Assumptions, as enabling conditions: accept returns a descriptor that is not a member,
 above the listening one and below MAX_CLIENT; select returns a non-empty set of members;
 a write that does not fail makes progress; fwrite writes everything. A handler is one step.
 */
module Server {
  import C = Clients
  import opened Commands
  import opened Paths
  import opened Descriptors

  /** Where a worker is in send_file or recv_file. */
  datatype Phase = Spawned | Copying | Sent226 | Released | Closed | Failed

  /**
   A transfer worker. A sender reads `source`, the file, through `chunk` onto the data
   channel `sink`; a receiver stores `source`, the bytes that arrive, in the file `sink`.
   */
  datatype Worker = Worker(
    fd: nat, kind: C.Kind, phase: Phase,
    source: seq<int>, pos: nat, chunk: seq<int>, eof: bool, sink: seq<int>)

  /** The steps of a worker. */
  datatype Move =
    | Begin           // status := TRANSFER
    | Fill            // fread
    | Drain(n: nat)   // a write of n bytes
    | Store(n: nat)   // a read of n bytes and their fwrite
    | Break           // a write or read fails, the thread ends
    | Finish          // 226
    | Release         // status := AVAILABLE, transfer_mode := NONE
    | Close           // the data connection

  datatype Event = Event(fd: nat, note: C.Note)

  /** Where the main loop is: before select, at a descriptor of a round, or between snapshot and act. */
  datatype Loop =
    | Selecting
    | Scanning(ready: set<nat>, cursor: nat, done: seq<nat>)
    | Deciding(ready: set<nat>, cursor: nat, done: seq<nat>, line: string, snapshot: C.Status)

  datatype Server = Server(
    root: string, listenFd: nat,
    clients: seq<C.Client>, table: Table, loop: Loop, workers: seq<Worker>, log: seq<Event>)

  datatype Action =
    | Select(ready: set<nat>)
    | Skip
    | Accept(conn: nat)
    | Recv(line: string)
    | HangUp
    | Act(env: C.Env)
    | EndRound
    | Work(i: nat, move: Move)

  ghost predicate Init(s: Server) {
    && s.root != "" && 0 < s.listenFd < MAX_CLIENT
    && |s.clients| == MAX_CLIENT && (forall f | 0 <= f < MAX_CLIENT :: s.clients[f] == C.EMPTY)
    && s.table == Table({s.listenFd}, s.listenFd)
    && s.loop == Selecting && s.workers == [] && s.log == []
  }

  // ---------- Workers ----------

  function Min(a: nat, b: nat): nat {
    if a <= b then a else b
  }

  predicate CanMove(w: Worker, m: Move) {
    match m
    case Begin => w.phase == Spawned
    case Fill => w.phase == Copying && w.kind == C.Send && w.chunk == [] && !w.eof && w.pos <= |w.source|
    case Drain(n) => w.phase == Copying && w.kind == C.Send && 0 < n <= |w.chunk|
    case Store(n) => w.phase == Copying && w.kind == C.Receive && 0 < n <= MAX_BUF && w.pos + n <= |w.source|
    case Break => w.phase == Copying && (w.kind == C.Send ==> w.chunk != [])
    case Finish => w.phase == Copying && (if w.kind == C.Send then w.chunk == [] && w.eof else w.pos == |w.source|)
    case Release => w.phase == Sent226
    case Close => w.phase == Released
  }

  function Moved(w: Worker, m: Move): Worker
    requires CanMove(w, m)
  {
    match m
    case Begin => w.(phase := Copying)
    case Fill =>
      var n := Min(MAX_BUF, |w.source| - w.pos);
      w.(chunk := w.source[w.pos..w.pos + n], pos := w.pos + n, eof := n < MAX_BUF)
    case Drain(n) => w.(sink := w.sink + w.chunk[..n], chunk := w.chunk[n..])
    case Store(n) => w.(sink := w.sink + w.source[w.pos..w.pos + n], pos := w.pos + n)
    case Break => w.(phase := Failed)
    case Finish => w.(phase := Sent226)
    case Release => w.(phase := Released)
    case Close => w.(phase := Closed)
  }

  function MovedClient(c: C.Client, m: Move): C.Client {
    match m
    case Begin => C.Started(c)
    case Release => C.Released(c)
    case Close => C.DataClosed(c)
    case _ => c
  }

  function MoveNotes(m: Move): seq<C.Note> {
    match m
    case Break => [C.Lost]
    case Finish => [C.Say(C.Complete)]
    case _ => []
  }

  function NewWorker(fd: nat, kind: C.Kind, source: seq<int>): Worker {
    Worker(fd, kind, Spawned, source, 0, [], false, [])
  }

  /** A worker that has not yet handed its session back and has not failed. */
  predicate Outstanding(w: Worker) {
    w.phase == Spawned || w.phase == Copying || w.phase == Sent226
  }

  /** A worker whose 150 is neither answered by a 226 nor given up. */
  predicate Busy(w: Worker) {
    w.phase == Spawned || w.phase == Copying
  }

  /** The moves take a worker and the record of its session from `w` and `c` to `v` and `d`. */
  ghost predicate Runs(w: Worker, c: C.Client, moves: seq<Move>, v: Worker, d: C.Client) {
    if moves == [] then v == w && d == c
    else
      var k := |moves| - 1;
      exists u, e :: Runs(w, c, moves[..k], u, e) && CanMove(u, moves[k]) && v == Moved(u, moves[k]) && d == MovedClient(e, moves[k])
  }

  ghost predicate Becomes(w: Worker, c: C.Client, v: Worker, d: C.Client) {
    exists moves :: Runs(w, c, moves, v, d)
  }

  lemma StaysItself(w: Worker, c: C.Client)
    ensures Becomes(w, c, w, c)
  {
    assert Runs(w, c, [], w, c);
  }

  lemma MovesOn(w: Worker, c: C.Client, v: Worker, d: C.Client, m: Move)
    requires Becomes(w, c, v, d) && CanMove(v, m)
    ensures Becomes(w, c, Moved(v, m), MovedClient(d, m))
  {
    var moves :| Runs(w, c, moves, v, d);
    assert (moves + [m])[..|moves|] == moves;
    assert Runs(w, c, moves + [m], Moved(v, m), MovedClient(d, m));
  }

  // ---------- Steps ----------

  predicate Enabled(s: Server, a: Action) {
    match a
    case Select(ready) => s.loop.Selecting? && ready != {} && ready <= s.table.fds
    case Skip =>
      && s.loop.Scanning? && s.loop.cursor <= s.table.maxFd
      && (s.loop.cursor !in s.loop.ready
          || (s.loop.cursor != s.listenFd && s.loop.cursor < |s.clients|
              && s.clients[s.loop.cursor].status == C.Disconnected))
    case Accept(conn) =>
      && s.loop.Scanning? && s.loop.cursor <= s.table.maxFd && s.loop.cursor in s.loop.ready
      && s.loop.cursor == s.listenFd && conn !in s.table.fds && s.listenFd < conn < |s.clients|
    case Recv(line) => AtClient(s) && NotBlank(line) && |line| + 2 <= MAX_BUF
    case HangUp => AtClient(s)
    case Act(_) =>
      && s.loop.Deciding? && s.loop.cursor < |s.clients|
      && s.root != "" && Rooted(s.clients[s.loop.cursor].dir)
    case EndRound => s.loop.Scanning? && s.loop.cursor > s.table.maxFd
    case Work(i, move) => i < |s.workers| && s.workers[i].fd < |s.clients| && CanMove(s.workers[i], move)
  }

  /** The loop is at a ready descriptor with a record in use. */
  predicate AtClient(s: Server) {
    && s.loop.Scanning? && s.loop.cursor <= s.table.maxFd && s.loop.cursor in s.loop.ready
    && s.loop.cursor != s.listenFd && s.loop.cursor < |s.clients|
    && s.clients[s.loop.cursor].status != C.Disconnected
  }

  /** The session that a step is about, if any. */
  predicate Concerns(a: Action) {
    a.Accept? || a.HangUp? || a.Act? || a.Work?
  }

  function Subject(s: Server, a: Action): (fd: nat)
    requires Enabled(s, a) && Concerns(a)
    ensures fd < |s.clients|
  {
    match a
    case Accept(conn) => conn
    case Work(i, _) => s.workers[i].fd
    case HangUp => s.loop.cursor
    case Act(_) => s.loop.cursor
  }

  /** What the act of a step is, when there is one. */
  function Outcome(s: Server, env: C.Env): C.Result
    requires Enabled(s, Act(env))
  {
    C.Interpret(s.root, s.clients[s.loop.cursor], s.loop.snapshot, s.loop.line, env)
  }

  function ClientAfter(s: Server, a: Action): C.Client
    requires Enabled(s, a) && Concerns(a)
  {
    var c := s.clients[Subject(s, a)];
    match a
    case Accept(_) => Greeted(c)
    case HangUp => C.EMPTY
    case Act(env) => Outcome(s, env).client
    case Work(_, move) => MovedClient(c, move)
  }

  function NotesOf(s: Server, a: Action): seq<C.Note>
    requires Enabled(s, a) && Concerns(a)
  {
    match a
    case Accept(_) => [C.Say(C.Welcome)]
    case HangUp => [C.HungUp]
    case Act(env) => Outcome(s, env).notes
    case Work(_, move) => MoveNotes(move)
  }

  function WorkersAfter(s: Server, a: Action): seq<Worker>
    requires Enabled(s, a)
  {
    match a
    case Act(env) =>
      (match Outcome(s, env).spawn
       case None => s.workers
       case Some(kind) => s.workers + [NewWorker(s.loop.cursor, kind, env.source)])
    case Work(i, move) => s.workers[i := Moved(s.workers[i], move)]
    case _ => s.workers
  }

  function TableAfter(s: Server, a: Action): Table
    requires Enabled(s, a)
  {
    match a
    case Accept(conn) => Add(s.table, conn)
    case HangUp => Remove(s.table, s.loop.cursor)
    case _ => s.table
  }

  function LoopAfter(s: Server, a: Action): Loop
    requires Enabled(s, a)
  {
    match a
    case Select(ready) => Scanning(ready, 0, [])
    case Skip => Scanning(s.loop.ready, s.loop.cursor + 1, s.loop.done)
    case Recv(line) => Deciding(s.loop.ready, s.loop.cursor, s.loop.done, line, s.clients[s.loop.cursor].status)
    case EndRound => Selecting
    case Work(_, _) => s.loop
    case Accept(_) => Served(s.loop)
    case HangUp => Served(s.loop)
    case Act(_) => Served(s.loop)
  }

  function Served(loop: Loop): Loop
    requires !loop.Selecting?
  {
    Scanning(loop.ready, loop.cursor + 1, loop.done + [loop.cursor])
  }

  function Stamp(fd: nat, notes: seq<C.Note>): (es: seq<Event>)
    ensures |es| == |notes| && forall i | 0 <= i < |notes| :: es[i] == Event(fd, notes[i])
  {
    seq(|notes|, i requires 0 <= i < |notes| => Event(fd, notes[i]))
  }

  function ClientsAfter(s: Server, a: Action): seq<C.Client>
    requires Enabled(s, a)
  {
    if Concerns(a) then s.clients[Subject(s, a) := ClientAfter(s, a)] else s.clients
  }

  function LogAfter(s: Server, a: Action): seq<Event>
    requires Enabled(s, a)
  {
    if Concerns(a) then s.log + Stamp(Subject(s, a), NotesOf(s, a)) else s.log
  }

  function Next(s: Server, a: Action): Server
    requires Enabled(s, a)
  {
    Server(s.root, s.listenFd, ClientsAfter(s, a), TableAfter(s, a), LoopAfter(s, a), WorkersAfter(s, a), LogAfter(s, a))
  }

  ghost predicate HasOutstanding(ws: seq<Worker>, fd: nat) {
    exists i :: 0 <= i < |ws| && ws[i].fd == fd && Outstanding(ws[i])
  }

  /** A worker that has been created and has not begun. */
  ghost predicate HasSpawned(ws: seq<Worker>, fd: nat) {
    exists i :: 0 <= i < |ws| && ws[i].fd == fd && ws[i].phase == Spawned
  }

  /** The actions `acts` lead from `s` to `t`. */
  ghost predicate Leads(s: Server, acts: seq<Action>, t: Server)
    decreases |acts|
  {
    if acts == [] then s == t
    else Enabled(s, acts[0]) && Leads(Next(s, acts[0]), acts[1..], t)
  }

  /** A worker whose 150 is neither answered nor given up. */
  ghost predicate HasBusy(ws: seq<Worker>, fd: nat) {
    exists i :: 0 <= i < |ws| && ws[i].fd == fd && Busy(ws[i])
  }

  /**
   What some results ask of a run, on the one descriptor that they speak about.
   Answered: the connection is not closed while a worker still has to send its 226.
   Orderly: it is not closed while a worker is outstanding on it.
   Prompt: orderly, and no command that uses a data connection is read while a worker has not begun.
   Eager: orderly, and while a worker has not begun nothing else happens.
   */
  datatype Rule = Answered(fd: nat) | Orderly(fd: nat) | Prompt(fd: nat) | Eager(fd: nat)

  ghost predicate Keeps(rule: Rule, s: Server, a: Action) {
    && (a.HangUp? && Enabled(s, a) && s.loop.cursor == rule.fd ==>
          if rule.Answered? then !HasBusy(s.workers, rule.fd) else !HasOutstanding(s.workers, rule.fd))
    && (rule.Prompt? && a.Recv? && Enabled(s, a) && s.loop.cursor == rule.fd && UsesConnection(a.line) ==>
          !HasSpawned(s.workers, rule.fd))
    && (rule.Eager? && HasSpawned(s.workers, rule.fd) ==> a.Work? && a.move.Begin?)
  }

  /** A run that keeps a rule. */
  ghost predicate LeadsUnder(rule: Rule, s: Server, acts: seq<Action>, t: Server)
    decreases |acts|
  {
    if acts == [] then s == t
    else Enabled(s, acts[0]) && Keeps(rule, s, acts[0]) && LeadsUnder(rule, Next(s, acts[0]), acts[1..], t)
  }

  lemma {:induction false} UnderLeads(rule: Rule, s: Server, acts: seq<Action>, t: Server)
    requires LeadsUnder(rule, s, acts, t)
    ensures Leads(s, acts, t)
    decreases |acts|
  {
    if acts != [] {
      UnderLeads(rule, Next(s, acts[0]), acts[1..], t);
    }
  }

  /** Eager runs are prompt, prompt ones orderly, and orderly ones answered. */
  predicate AsStrict(rule: Rule, weaker: Rule) {
    && weaker.fd == rule.fd
    && match weaker
       case Answered(_) => true
       case Orderly(_) => !rule.Answered?
       case Prompt(_) => rule.Prompt? || rule.Eager?
       case Eager(_) => rule.Eager?
  }

  lemma {:induction false} Relax(rule: Rule, weaker: Rule, s: Server, acts: seq<Action>, t: Server)
    requires LeadsUnder(rule, s, acts, t)
    requires AsStrict(rule, weaker)
    ensures LeadsUnder(weaker, s, acts, t)
    decreases |acts|
  {
    if acts != [] {
      hide Next, Enabled, HasSpawned;
      Relax(rule, weaker, Next(s, acts[0]), acts[1..], t);
    }
  }

  /** Runs can be joined. */
  lemma {:induction false} LeadsConcat(s: Server, a: seq<Action>, m: Server, b: seq<Action>, t: Server)
    requires Leads(s, a, m) && Leads(m, b, t)
    ensures Leads(s, a + b, t)
    decreases |a|
  {
    hide Next, Enabled;
    if a == [] {
      assert a + b == b;
    } else {
      LeadsConcat(Next(s, a[0]), a[1..], m, b, t);
      assert (a + b)[1..] == a[1..] + b;
    }
  }

  lemma {:induction false} UnderConcat(rule: Rule, s: Server, a: seq<Action>, m: Server, b: seq<Action>, t: Server)
    requires LeadsUnder(rule, s, a, m) && LeadsUnder(rule, m, b, t)
    ensures LeadsUnder(rule, s, a + b, t)
    decreases |a|
  {
    hide Next, Enabled, Keeps;
    if a == [] {
      assert a + b == b;
    } else {
      UnderConcat(rule, Next(s, a[0]), a[1..], m, b, t);
      assert (a + b)[1..] == a[1..] + b;
    }
  }
}
