/**
 A fresh data connection for every transfer of a session, over all runs that are prompt on its
 descriptor: its connection is not closed while a worker is outstanding on it, and no command
 of it that uses a data connection is read while a worker of it has not begun.
 */
module Renewal {
  import C = Clients
  import opened Paths
  import opened Descriptors
  import opened Commands
  import opened Server
  import opened Logs
  import opened Directories
  import opened Rounds
  import opened Logins

  /** A record has a mode only if a data connection was announced, unless a transfer is using it up. */
  predicate ModeReady(c: C.Client, t: Track) {
    && t.renewed
    && (c.mode != C.NoMode && c.status != C.Transfer ==> t.armed)
    && (c.status == C.Disconnected ==> c.mode == C.NoMode)
  }

  /** What the phase of an outstanding worker says about its session. */
  predicate WorkerReady(w: Worker, c: C.Client, t: Track) {
    match w.phase
    case Spawned => c.status == C.Available && c.mode != C.NoMode
    case Copying => c.status == C.Transfer && t.armed
    case Sent226 => c.status == C.Transfer
    case _ => true
  }

  ghost predicate WorkersReady(ws: seq<Worker>, fd: nat, c: C.Client, t: Track) {
    && (forall i | 0 <= i < |ws| && ws[i].fd == fd :: WorkerReady(ws[i], c, t))
    && (forall i, j | 0 <= i < j < |ws| && ws[i].fd == fd && ws[j].fd == fd :: !Outstanding(ws[i]) || !Outstanding(ws[j]))
  }

  /**
   Between a command that uses a data connection and the act on it no worker is about to begin,
   and a snapshot AVAILABLE is exact.
   */
  ghost predicate LoopReady(s: Server, fd: nat) {
    s.loop.Deciding? && s.loop.cursor == fd && UsesConnection(s.loop.line) ==>
      && !HasSpawned(s.workers, fd) && fd < |s.clients|
      && (s.loop.snapshot == C.Available ==> s.clients[fd].status == C.Available)
  }

  ghost predicate SessionReady(s: Server, fd: nat) {
    && fd < |s.clients|
    && ModeReady(s.clients[fd], TrackOf(s.log, fd))
    && WorkersReady(s.workers, fd, s.clients[fd], TrackOf(s.log, fd))
    && LoopReady(s, fd)
  }

  lemma ReadyInit(s: Server, fd: nat)
    requires Init(s) && fd < MAX_CLIENT
    ensures SessionReady(s, fd)
  {
  }

  // ---------- Acts ----------

  /** What a shape does to the mode and to the summary of its session. */
  lemma ShapeReady(c: C.Client, t: Track, r: C.Result)
    requires C.Shape(c, r) && ModeReady(c, t) && c.status == C.Available
    ensures ModeReady(r.client, AfterAll(t, r.notes))
    ensures r.client.status == C.Available && (r.spawn.Some? ==> r.client.mode != C.NoMode)
  {
    if r.spawn.Some? {
      AfterOne(t, C.Say(C.Opening));
    } else if C.Plain(r.notes) {
      AfterPlain(t, r.notes);
    } else if C.FailedAfterOpening(r.notes) {
      AfterFailed(t, r.notes);
    } else if C.Listed(r.notes) {
      AfterListed(t, r.notes);
    } else {
      assert r.notes == [r.notes[0]];
      AfterOne(t, r.notes[0]);
    }
  }

  lemma LoginReady(c: C.Client, t: Track, r: C.Result)
    requires ModeReady(c, t) && c.status != C.Disconnected && c.status != C.Transfer
    requires C.ConnectedShape(c, r) || C.PasswordShape(c, r)
    ensures ModeReady(r.client, AfterAll(t, r.notes)) && r.spawn.None?
  {
    if C.Plain(r.notes) {
      AfterPlain(t, r.notes);
    } else {
      AfterOne(t, C.Say(C.UserOk));
      AfterOne(t, C.Say(C.PassOk));
    }
  }

  /** An act that workers of the session need not notice. */
  predicate Calm(c: C.Client, t: Track, r: C.Result, t': Track) {
    && r.spawn.None? && r.client.status == c.status && t'.renewed == t.renewed
    && ((r.client.mode == c.mode && t'.armed == t.armed) || (r.client.mode != C.NoMode && t'.armed))
  }

  lemma QuietIsCalm(c: C.Client, t: Track, r: C.Result)
    requires C.QuietShape(c, r)
    ensures Calm(c, t, r, AfterAll(t, r.notes))
  {
    if C.Plain(r.notes) {
      AfterPlain(t, r.notes);
    } else {
      assert r.notes == [r.notes[0]];
      AfterOne(t, r.notes[0]);
    }
  }

  lemma NothingIsCalm(c: C.Client, t: Track)
    ensures Calm(c, t, C.Only(0, c), AfterAll(t, C.Only(0, c).notes))
  {
  }

  /** An act is calm, or no worker of the session is outstanding. */
  ghost predicate ActFits(c: C.Client, t: Track, r: C.Result, ws: seq<Worker>, fd: nat) {
    var t' := AfterAll(t, r.notes);
    || Calm(c, t, r, t')
    || (ModeReady(r.client, t') && !HasOutstanding(ws, fd)
        && (r.spawn.Some? ==> r.client.status == C.Available && r.client.mode != C.NoMode))
  }

  lemma ActReady(s: Server, env: C.Env, fd: nat)
    requires Kept(s) && SessionSound(s, fd) && SessionReady(s, fd) && Enabled(s, Act(env)) && s.loop.cursor == fd
    ensures ActFits(s.clients[fd], TrackOf(s.log, fd), Outcome(s, env), s.workers, fd)
  {
    var c, t := s.clients[fd], TrackOf(s.log, fd);
    assert GoodClient(s.root, c);
    C.InterpretShape(s.root, c, s.loop.snapshot, s.loop.line, env);
    var r := Outcome(s, env);
    assert s.loop.snapshot == C.Available ==> r == C.Serve(s.root, c, s.loop.line, env);
    hide C.Interpret, C.Serve, C.Contained, GoodDir, TrackOf, Outcome, Kept, UsesConnection, AfterAll, HasOutstanding,
      HasSpawned, C.Shape, C.ConnectedShape, C.PasswordShape, C.QuietShape, WorkersReady, ModeReady, Calm;
    match s.loop.snapshot {
      case Available =>
        if UsesConnection(s.loop.line) {
          NobodyOutstanding(s, fd);
          ShapeReady(c, t, r);
        } else {
          C.ServeQuiet(s.root, c, s.loop.line, env);
          QuietIsCalm(c, t, r);
        }
      case Connected => LoginReady(c, t, r);
      case Password => LoginReady(c, t, r);
      case Transfer => NothingIsCalm(c, t);
    }
  }

  lemma NobodyOutstanding(s: Server, fd: nat)
    requires SessionReady(s, fd) && !HasSpawned(s.workers, fd) && s.clients[fd].status != C.Transfer
    ensures !HasOutstanding(s.workers, fd)
  {
    hide TrackOf;
    forall i | 0 <= i < |s.workers| && s.workers[i].fd == fd
      ensures !Outstanding(s.workers[i])
    {
      assert WorkerReady(s.workers[i], s.clients[fd], TrackOf(s.log, fd));
    }
  }

  // ---------- Workers ----------

  lemma WorkersQuiet(ws: seq<Worker>, fd: nat, c: C.Client, t: Track)
    requires !HasOutstanding(ws, fd)
    ensures WorkersReady(ws, fd, c, t)
  {
    assert forall i | 0 <= i < |ws| && ws[i].fd == fd :: !Outstanding(ws[i]);
  }

  lemma WorkersSnoc(ws: seq<Worker>, w: Worker, fd: nat, c: C.Client, t: Track)
    requires !HasOutstanding(ws, fd) && w.fd == fd && WorkerReady(w, c, t)
    ensures WorkersReady(ws + [w], fd, c, t)
  {
    assert forall i | 0 <= i < |ws| && ws[i].fd == fd :: !Outstanding(ws[i]);
  }

  lemma WorkersCalm(ws: seq<Worker>, fd: nat, c: C.Client, t: Track, r: C.Result, t': Track)
    requires WorkersReady(ws, fd, c, t) && ModeReady(c, t) && Calm(c, t, r, t') && c.status != C.Disconnected
    ensures WorkersReady(ws, fd, r.client, t') && ModeReady(r.client, t')
  {
    forall i | 0 <= i < |ws| && ws[i].fd == fd
      ensures WorkerReady(ws[i], r.client, t')
    {
      assert WorkerReady(ws[i], c, t);
    }
  }

  /** A worker moves; if it is outstanding nobody else is, so only its own readiness matters. */
  lemma WorkersMove(ws: seq<Worker>, i: nat, w: Worker, fd: nat, c: C.Client, t: Track, c': C.Client, t': Track)
    requires WorkersReady(ws, fd, c, t) && i < |ws| && ws[i].fd == fd == w.fd
    requires (Outstanding(w) ==> Outstanding(ws[i])) && WorkerReady(w, c', t')
    requires Outstanding(ws[i]) || (c'.status == c.status && c'.mode == c.mode && t'.armed == t.armed)
    ensures WorkersReady(ws[i := w], fd, c', t')
  {
    forall j | 0 <= j < |ws| && ws[j].fd == fd && j != i
      ensures WorkerReady(ws[j], c', t')
    {
      assert WorkerReady(ws[j], c, t);
      if Outstanding(ws[i]) {
        var low, high := if j < i then j else i, if j < i then i else j;
        assert !Outstanding(ws[low]) || !Outstanding(ws[high]);
      }
    }
  }

  lemma MoveReady(w: Worker, move: Move, c: C.Client, t: Track)
    requires CanMove(w, move) && ModeReady(c, t) && WorkerReady(w, c, t)
    ensures ModeReady(MovedClient(c, move), AfterAll(t, MoveNotes(move)))
    ensures WorkerReady(Moved(w, move), MovedClient(c, move), AfterAll(t, MoveNotes(move)))
    ensures Outstanding(w) || (MovedClient(c, move) == c.(dataFd := MovedClient(c, move).dataFd) && MoveNotes(move) == [])
    ensures Outstanding(Moved(w, move)) ==> Outstanding(w)
  {
    AfterOne(t, C.Lost);
    AfterOne(t, C.Say(C.Complete));
  }

  // ---------- All steps ----------

  lemma HereReady(s: Server, a: Action, fd: nat)
    requires Kept(s) && SessionSound(s, fd) && SessionReady(s, fd) && Enabled(s, a) && Keeps(Prompt(fd), s, a)
    requires Concerns(a) && Subject(s, a) == fd
    ensures var c, t := ClientAfter(s, a), AfterAll(TrackOf(s.log, fd), NotesOf(s, a));
            ModeReady(c, t) && WorkersReady(WorkersAfter(s, a), fd, c, t)
  {
    var t := TrackOf(s.log, fd);
    match a {
      case Accept(_) =>
        AfterOne(t, C.Say(C.Welcome));
        WorkersQuiet(s.workers, fd, ClientAfter(s, a), AfterAll(t, NotesOf(s, a)));
      case HangUp =>
        AfterOne(t, C.HungUp);
        WorkersQuiet(s.workers, fd, ClientAfter(s, a), AfterAll(t, NotesOf(s, a)));
      case Act(env) =>
        hide C.Interpret, Kept, TrackOf, SessionSound;
        HereAct(s, env, fd);
      case Work(i, move) =>
        var w, c := s.workers[i], s.clients[fd];
        assert WorkerReady(w, c, t);
        MoveReady(w, move, c, t);
        hide TrackOf, WorkersReady, Kept, SessionSound;
        WorkersMove(s.workers, i, Moved(w, move), fd, c, t, MovedClient(c, move), AfterAll(t, MoveNotes(move)));
    }
  }

  lemma HereAct(s: Server, env: C.Env, fd: nat)
    requires Kept(s) && SessionSound(s, fd) && SessionReady(s, fd) && Enabled(s, Act(env)) && s.loop.cursor == fd
    ensures var c, t := Outcome(s, env).client, AfterAll(TrackOf(s.log, fd), Outcome(s, env).notes);
            ModeReady(c, t) && WorkersReady(WorkersAfter(s, Act(env)), fd, c, t)
  {
    ActReady(s, env, fd);
    var c, t, r := s.clients[fd], TrackOf(s.log, fd), Outcome(s, env);
    assert c.status != C.Disconnected;
    hide C.Interpret, Outcome, Kept, SessionSound, TrackOf, WorkersReady, HasOutstanding, ModeReady, Calm, AfterAll;
    var t' := AfterAll(t, r.notes);
    if Calm(c, t, r, t') {
      assert r.spawn.None? by { CalmSpawnsNothing(c, t, r, t'); }
      WorkersCalm(s.workers, fd, c, t, r, t');
    } else if r.spawn.Some? {
      WorkersSnoc(s.workers, NewWorker(fd, r.spawn.value, env.source), fd, r.client, t');
    } else {
      WorkersQuiet(s.workers, fd, r.client, t');
    }
  }

  lemma CalmSpawnsNothing(c: C.Client, t: Track, r: C.Result, t': Track)
    requires Calm(c, t, r, t')
    ensures r.spawn.None?
  {
  }

  /** Steps about other sessions leave the workers of this one alone. */
  lemma ElsewhereReady(s: Server, a: Action, fd: nat, c: C.Client, t: Track)
    requires Enabled(s, a) && WorkersReady(s.workers, fd, c, t) && (Concerns(a) ==> Subject(s, a) != fd)
    ensures WorkersReady(WorkersAfter(s, a), fd, c, t)
  {
    hide C.Interpret, Outcome;
    var ws := WorkersAfter(s, a);
    assert forall i | 0 <= i < |ws| && ws[i].fd == fd :: i < |s.workers| && ws[i] == s.workers[i];
  }

  /** A worker that has not begun after a step was there before, unless the step created it. */
  lemma SpawnedAfter(s: Server, a: Action, fd: nat)
    requires Enabled(s, a) && HasSpawned(WorkersAfter(s, a), fd) && !a.Act?
    ensures HasSpawned(s.workers, fd)
  {
    var i :| 0 <= i < |WorkersAfter(s, a)| && WorkersAfter(s, a)[i].fd == fd && WorkersAfter(s, a)[i].phase == Spawned;
    assert s.workers[i].fd == fd && s.workers[i].phase == Spawned;
  }

  lemma LoopReadyNext(s: Server, a: Action, fd: nat)
    requires SessionReady(s, fd) && Enabled(s, a) && Keeps(Prompt(fd), s, a)
    ensures LoopReady(Next(s, a), fd)
  {
    hide C.Interpret, TrackOf;
    if a.Act? || a.Accept? || a.HangUp? {
    } else {
      if HasSpawned(WorkersAfter(s, a), fd) {
        SpawnedAfter(s, a, fd);
      }
      if a.Work? && s.workers[a.i].fd == fd {
        assert WorkerReady(s.workers[a.i], s.clients[fd], TrackOf(s.log, fd));
      }
    }
  }

  lemma ReadyNext(s: Server, a: Action, fd: nat)
    requires Kept(s) && SessionSound(s, fd) && SessionReady(s, fd) && Enabled(s, a) && Keeps(Prompt(fd), s, a)
    ensures SessionReady(Next(s, a), fd)
  {
    LoopReadyNext(s, a, fd);
    if Concerns(a) {
      TrackStamp(s.log, Subject(s, a), NotesOf(s, a), fd);
    }
    if Concerns(a) && Subject(s, a) == fd {
      HereReady(s, a, fd);
    } else {
      ElsewhereReady(s, a, fd, s.clients[fd], TrackOf(s.log, fd));
    }
    hide C.Interpret, Kept, SessionSound, ModeReady, WorkersReady, LoopReady, TrackOf, ClientAfter, NotesOf, WorkersAfter, TableAfter, LoopAfter;
  }

  lemma {:induction false} AlwaysReady(s: Server, acts: seq<Action>, t: Server, fd: nat)
    requires Kept(s) && SessionSound(s, fd) && SessionReady(s, fd) && LeadsUnder(Prompt(fd), s, acts, t)
    ensures Kept(t) && SessionSound(t, fd) && SessionReady(t, fd)
    decreases |acts|
  {
    if acts != [] {
      KeptNext(s, acts[0]);
      SessionNext(s, acts[0], fd);
      ReadyNext(s, acts[0], fd);
      hide Kept, SessionSound, SessionReady, Next;
      AlwaysReady(Next(s, acts[0]), acts[1..], t, fd);
    }
  }

  lemma ReachedReady(s: Server, acts: seq<Action>, t: Server, fd: nat)
    requires Init(s) && LeadsUnder(Prompt(fd), s, acts, t) && fd < MAX_CLIENT
    ensures Kept(t) && SessionSound(t, fd) && SessionReady(t, fd)
  {
    KeptInit(s);
    SessionInit(s, fd);
    ReadyInit(s, fd);
    hide Kept, SessionSound, SessionReady, Init, LeadsUnder;
    AlwaysReady(s, acts, t, fd);
  }

  // ---------- The result ----------

  /** A completed transfer or list of the session at event `i`; -1 stands for the start. */
  predicate CompletedAt(log: seq<Event>, fd: nat, i: int) {
    i == -1 || (0 <= i < |log| && log[i] == Event(fd, C.Say(C.Complete)))
  }

  /** Before every completed transfer or list, and after the one before it, there is a successful PORT or PASV. */
  ghost predicate Fresh(log: seq<Event>, fd: nat) {
    forall i, j | CompletedAt(log, fd, i) && CompletedAt(log, fd, j) && i < j ::
      exists k :: i < k < j && Announces(log[k], fd)
  }

  lemma FreshConnection(s: Server, acts: seq<Action>, t: Server, fd: nat)
    requires Init(s) && LeadsUnder(Prompt(fd), s, acts, t) && fd < MAX_CLIENT
    ensures Fresh(t.log, fd)
  {
    ReachedReady(s, acts, t, fd);
    hide Kept, SessionSound, Init, LeadsUnder, WorkersReady, LoopReady;
    forall i, j | CompletedAt(t.log, fd, i) && CompletedAt(t.log, fd, j) && i < j
      ensures exists k :: i < k < j && Announces(t.log[k], fd)
    {
      RenewedMeans(t.log, fd, i, j);
    }
  }

  /** In particular when the creation of a worker and its beginning are taken as one step. */
  lemma FreshWhenEager(s: Server, acts: seq<Action>, t: Server, fd: nat)
    requires Init(s) && LeadsUnder(Eager(fd), s, acts, t) && fd < MAX_CLIENT
    ensures Fresh(t.log, fd)
  {
    Relax(Eager(fd), Prompt(fd), s, acts, t);
    FreshConnection(s, acts, t, fd);
  }
}
