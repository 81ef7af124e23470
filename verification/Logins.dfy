/**
 Invariants of one session, over all runs that are orderly on its descriptor: its own
 connection is not closed while a worker is outstanding on it, whatever happens to the others.
 Login safety, agreement of the record with the descriptor set, and stability of the status
 snapshot.
 */
module Logins {
  import C = Clients
  import opened Paths
  import opened Descriptors
  import opened Server
  import opened Logs
  import opened Directories
  import opened Rounds

  /** The status of a record is how far the log says its login has come. */
  predicate StatusStage(status: C.Status, stage: nat) {
    match status
    case Disconnected => stage == 0
    case Connected => stage == 1
    case Password => stage == 2
    case Available => stage == 3
    case Transfer => stage == 3
  }

  predicate Serving(status: C.Status) {
    status == C.Available || status == C.Transfer
  }

  /** What the real status can be when the main loop acts on a snapshot. */
  predicate Stable(snapshot: C.Status, status: C.Status) {
    match snapshot
    case Disconnected => false
    case Connected => status == C.Connected
    case Password => status == C.Password
    case Available => Serving(status)
    case Transfer => Serving(status)
  }

  /** The record of `fd`, against the log, its workers and the descriptor set. */
  ghost predicate RecordSound(s: Server, fd: nat) {
    && fd < |s.clients|
    && StatusStage(s.clients[fd].status, TrackOf(s.log, fd).stage)
    && (HasOutstanding(s.workers, fd) ==> Serving(s.clients[fd].status))
    && (s.clients[fd].status != C.Disconnected <==> fd in s.table.fds && fd != s.listenFd)
  }

  ghost predicate SnapshotSound(s: Server, fd: nat) {
    s.loop.Deciding? && s.loop.cursor == fd ==> fd < |s.clients| && Stable(s.loop.snapshot, s.clients[fd].status)
  }

  ghost predicate SessionSound(s: Server, fd: nat) {
    RecordSound(s, fd) && SnapshotSound(s, fd)
  }

  lemma SessionInit(s: Server, fd: nat)
    requires Init(s) && fd < MAX_CLIENT
    ensures SessionSound(s, fd)
  {
  }

  // ---------- Steps about the session ----------

  lemma ShapeStage(t: Track, c: C.Client, r: C.Result)
    requires C.Shape(c, r)
    ensures AfterAll(t, r.notes).stage == t.stage
  {
    if r.spawn.Some? {
      AfterOne(t, C.Say(C.Opening));
    } else if C.Plain(r.notes) {
      AfterPlain(t, r.notes);
    } else if C.FailedAfterOpening(r.notes) {
      AfterFailed(t, r.notes);
    } else if C.Listed(r.notes) {
      AfterListed(t, r.notes);
    } else {
      assert r.notes == [r.notes[0]];
      AfterOne(t, r.notes[0]);
    }
  }

  /** An act on a stable snapshot moves the status as it moves the login. */
  lemma ActStage(s: Server, env: C.Env)
    requires DirectoriesSound(s) && Enabled(s, Act(env))
    requires var c := s.clients[s.loop.cursor];
             StatusStage(c.status, TrackOf(s.log, s.loop.cursor).stage) && Stable(s.loop.snapshot, c.status)
    ensures var c, r := s.clients[s.loop.cursor], Outcome(s, env);
            var t := TrackOf(s.log, s.loop.cursor);
            && StatusStage(r.client.status, AfterAll(t, r.notes).stage)
           
            && (Serving(c.status) ==> r.client.status == c.status)
            && (r.spawn.Some? ==> Serving(c.status))
            && r.client.status != C.Disconnected
  {
    var c, t := s.clients[s.loop.cursor], TrackOf(s.log, s.loop.cursor);
    assert GoodClient(s.root, c);
    C.InterpretShape(s.root, c, s.loop.snapshot, s.loop.line, env);
    var r := Outcome(s, env);
    hide C.Interpret, C.Contained, GoodDir, TrackOf, Outcome, DirectoriesSound;
    match s.loop.snapshot {
      case Available => ShapeStage(t, c, r);
      case Connected => LoginStage(t, c, r);
      case Password => LoginStage(t, c, r);
      case Transfer =>
    }
  }

  lemma LoginStage(t: Track, c: C.Client, r: C.Result)
    requires StatusStage(c.status, t.stage)
    requires (c.status == C.Connected && C.ConnectedShape(c, r)) || (c.status == C.Password && C.PasswordShape(c, r))
    ensures StatusStage(r.client.status, AfterAll(t, r.notes).stage) && r.client.status != C.Disconnected
    ensures r.spawn.None?
  {
    if C.Plain(r.notes) {
      AfterPlain(t, r.notes);
    } else {
      AfterOne(t, C.Say(C.UserOk));
      AfterOne(t, C.Say(C.PassOk));
    }
  }

  lemma WorkStage(t: Track, m: Move)
    ensures AfterAll(t, MoveNotes(m)).stage == t.stage
  {
    AfterOne(t, C.Lost);
    AfterOne(t, C.Say(C.Complete));
  }

  /** A worker of `fd` that is outstanding after a step was so before, or has just been created. */
  lemma OutstandingAfter(s: Server, a: Action, fd: nat)
    requires Enabled(s, a) && HasOutstanding(WorkersAfter(s, a), fd)
    ensures HasOutstanding(s.workers, fd) || (a.Act? && Outcome(s, a.env).spawn.Some? && s.loop.cursor == fd)
  {
    hide C.Interpret, Outcome;
    var i :| 0 <= i < |WorkersAfter(s, a)| && WorkersAfter(s, a)[i].fd == fd && Outstanding(WorkersAfter(s, a)[i]);
    if i < |s.workers| {
      assert s.workers[i].fd == fd && Outstanding(s.workers[i]);
    }
  }

  lemma RecordHere(s: Server, a: Action, fd: nat)
    requires Kept(s) && SessionSound(s, fd) && Enabled(s, a) && Keeps(Orderly(fd), s, a)
    requires Concerns(a) && Subject(s, a) == fd
    ensures StatusStage(ClientAfter(s, a).status, AfterAll(TrackOf(s.log, fd), NotesOf(s, a)).stage)
    ensures HasOutstanding(WorkersAfter(s, a), fd) ==> Serving(ClientAfter(s, a).status)
    ensures ClientAfter(s, a).status != C.Disconnected <==> fd in TableAfter(s, a).fds && fd != s.listenFd
  {
    hide TrackOf, AfterAll, NotesOf, C.Interpret;
    match a {
      case Accept(_) => HereAccept(s, a, fd);
      case HangUp => HereHangUp(s, fd);
      case Act(env) => HereAct(s, env, fd);
      case Work(i, move) => HereWork(s, i, move, fd);
    }
  }

  lemma HereAccept(s: Server, a: Action, fd: nat)
    requires RecordSound(s, fd) && Enabled(s, a) && a == Accept(fd)
    ensures AfterAll(TrackOf(s.log, fd), NotesOf(s, a)).stage == 1
    ensures ClientAfter(s, a).status == C.Connected && !HasOutstanding(WorkersAfter(s, a), fd)
    ensures fd in TableAfter(s, a).fds && fd != s.listenFd
  {
    AfterOne(TrackOf(s.log, fd), C.Say(C.Welcome));
  }

  lemma HereHangUp(s: Server, fd: nat)
    requires Enabled(s, HangUp) && s.loop.cursor == fd && !HasOutstanding(s.workers, fd)
    ensures AfterAll(TrackOf(s.log, fd), NotesOf(s, HangUp)).stage == 0
    ensures ClientAfter(s, HangUp).status == C.Disconnected && !HasOutstanding(WorkersAfter(s, HangUp), fd)
    ensures fd !in TableAfter(s, HangUp).fds
  {
    hide TrackOf, AfterAll, HasOutstanding, C.Interpret, Rescan;
    AfterOne(TrackOf(s.log, fd), C.HungUp);
  }

  lemma HereAct(s: Server, env: C.Env, fd: nat)
    requires Kept(s) && SessionSound(s, fd) && Enabled(s, Act(env)) && s.loop.cursor == fd
    ensures StatusStage(ClientAfter(s, Act(env)).status, AfterAll(TrackOf(s.log, fd), NotesOf(s, Act(env))).stage)
    ensures HasOutstanding(WorkersAfter(s, Act(env)), fd) ==> Serving(ClientAfter(s, Act(env)).status)
    ensures ClientAfter(s, Act(env)).status != C.Disconnected <==> fd in s.table.fds && fd != s.listenFd
  {
    hide C.Interpret, TrackOf, Shaped;
    ActStage(s, env);
    hide Outcome, DirectoriesSound;
    if HasOutstanding(WorkersAfter(s, Act(env)), fd) {
      OutstandingAfter(s, Act(env), fd);
    }
  }

  lemma HereWork(s: Server, i: nat, move: Move, fd: nat)
    requires SessionSound(s, fd) && Enabled(s, Work(i, move)) && s.workers[i].fd == fd
    ensures var a := Work(i, move);
            && StatusStage(ClientAfter(s, a).status, AfterAll(TrackOf(s.log, fd), NotesOf(s, a)).stage)
            && (HasOutstanding(WorkersAfter(s, a), fd) ==> Serving(ClientAfter(s, a).status))
            && (ClientAfter(s, a).status != C.Disconnected <==> fd in s.table.fds && fd != s.listenFd)
  {
    var a := Work(i, move);
    WorkStage(TrackOf(s.log, fd), move);
    assert Outstanding(s.workers[i]) ==> HasOutstanding(s.workers, fd);
    if HasOutstanding(WorkersAfter(s, a), fd) {
      OutstandingAfter(s, a, fd);
    }
  }

  // ---------- All steps ----------

  lemma RecordNext(s: Server, a: Action, fd: nat)
    requires Kept(s) && SessionSound(s, fd) && Enabled(s, a) && Keeps(Orderly(fd), s, a)
    ensures RecordSound(Next(s, a), fd)
  {
    if Concerns(a) {
      TrackStamp(s.log, Subject(s, a), NotesOf(s, a), fd);
    }
    if Concerns(a) && Subject(s, a) == fd {
      RecordHere(s, a, fd);
      hide C.Interpret, Kept, StatusStage, TrackOf, ClientAfter, NotesOf, HasOutstanding, WorkersAfter, TableAfter;
    } else {
      RecordElsewhere(s, a, fd);
      hide C.Interpret, Kept, StatusStage, TrackOf, ClientAfter, NotesOf, HasOutstanding, WorkersAfter, TableAfter;
    }
  }

  lemma RecordElsewhere(s: Server, a: Action, fd: nat)
    requires Enabled(s, a) && (Concerns(a) ==> Subject(s, a) != fd)
    ensures HasOutstanding(WorkersAfter(s, a), fd) ==> HasOutstanding(s.workers, fd)
    ensures fd in TableAfter(s, a).fds <==> fd in s.table.fds
  {
    hide C.Interpret;
    if HasOutstanding(WorkersAfter(s, a), fd) {
      OutstandingAfter(s, a, fd);
    }
  }

  /** The snapshot stays stable until it is acted on: workers only move between the two served states. */
  lemma SnapshotNext(s: Server, a: Action, fd: nat)
    requires RecordSound(s, fd) && SnapshotSound(s, fd) && Enabled(s, a)
    ensures SnapshotSound(Next(s, a), fd)
  {
    hide C.Interpret, TrackOf;
    if a.Work? && s.workers[a.i].fd == fd && Outstanding(s.workers[a.i]) {
      assert HasOutstanding(s.workers, fd);
    }
  }

  lemma SessionNext(s: Server, a: Action, fd: nat)
    requires Kept(s) && SessionSound(s, fd) && Enabled(s, a) && Keeps(Orderly(fd), s, a)
    ensures SessionSound(Next(s, a), fd)
  {
    RecordNext(s, a, fd);
    SnapshotNext(s, a, fd);
    hide RecordSound, SnapshotSound, Next, Kept;
  }

  lemma {:induction false} AlwaysSession(s: Server, acts: seq<Action>, t: Server, fd: nat)
    requires Kept(s) && SessionSound(s, fd) && LeadsUnder(Orderly(fd), s, acts, t)
    ensures Kept(t) && SessionSound(t, fd)
    decreases |acts|
  {
    if acts != [] {
      KeptNext(s, acts[0]);
      SessionNext(s, acts[0], fd);
      hide Kept, SessionSound, Next;
      AlwaysSession(Next(s, acts[0]), acts[1..], t, fd);
    }
  }

  lemma Reached(s: Server, acts: seq<Action>, t: Server, fd: nat)
    requires Init(s) && LeadsUnder(Orderly(fd), s, acts, t) && fd < MAX_CLIENT
    ensures Kept(t) && SessionSound(t, fd)
  {
    KeptInit(s);
    SessionInit(s, fd);
    hide Kept, SessionSound, Init, LeadsUnder;
    AlwaysSession(s, acts, t, fd);
  }

  // ---------- The results ----------

  /** A session that is being served, or that a worker is outstanding on, has logged in on its present connection. */
  ghost predicate LoginSafe(s: Server, fd: nat) {
    fd < |s.clients| && (Serving(s.clients[fd].status) || HasOutstanding(s.workers, fd)) ==> LoggedIn(s.log, fd)
  }

  lemma SafeNow(t: Server, fd: nat)
    requires SessionSound(t, fd)
    ensures LoginSafe(t, fd)
  {
    hide TrackOf, LoggedIn, HasOutstanding;
    TrackStage(t.log, fd);
  }

  /**
   Login safety: over every interleaving, a session that is available or in a transfer, and
   one with an outstanding worker, has had an accepted USER and then an accepted PASS since
   its own accept. Only the hang-ups of this very session have to be orderly.
   */
  lemma LoginSafety(s: Server, acts: seq<Action>, t: Server, fd: nat)
    requires Init(s) && LeadsUnder(Orderly(fd), s, acts, t)
    ensures LoginSafe(t, fd)
  {
    UnderLeads(Orderly(fd), s, acts, t);
    KeptInit(s);
    AlwaysKept(s, acts, t);
    hide Kept, SessionSound, Init, LeadsUnder, Leads, LoggedIn, HasOutstanding;
    if fd < |t.clients| {
      assert fd < MAX_CLIENT by { KeptCount(t); }
      Reached(s, acts, t, fd);
      SafeNow(t, fd);
    }
  }

  lemma KeptCount(s: Server)
    requires Kept(s)
    ensures |s.clients| == MAX_CLIENT
  {
  }

  /** Between any two steps the record is in use exactly when its descriptor is a member other than the listener. */
  lemma TableAgreement(s: Server, acts: seq<Action>, t: Server, fd: nat)
    requires Init(s) && LeadsUnder(Orderly(fd), s, acts, t) && fd < MAX_CLIENT
    ensures |t.clients| == MAX_CLIENT
    ensures t.clients[fd].status != C.Disconnected <==> fd in t.table.fds && fd != t.listenFd
  {
    Reached(s, acts, t, fd);
  }

  /**
   Snapshot stability: a snapshot CONNECTED or PASSWORD is still the status when it is acted
   on; for AVAILABLE the status is then AVAILABLE or TRANSFER.
   */
  lemma SnapshotStability(s: Server, acts: seq<Action>, t: Server)
    requires Init(s) && t.loop.Deciding? && LeadsUnder(Orderly(t.loop.cursor), s, acts, t)
    ensures t.loop.cursor < |t.clients|
    ensures var status := t.clients[t.loop.cursor].status;
            && (t.loop.snapshot == C.Connected ==> status == C.Connected)
            && (t.loop.snapshot == C.Password ==> status == C.Password)
            && (t.loop.snapshot == C.Available || t.loop.snapshot == C.Transfer ==> Serving(status))
  {
    UnderLeads(Orderly(t.loop.cursor), s, acts, t);
    KeptInit(s);
    AlwaysKept(s, acts, t);
    Reached(s, acts, t, t.loop.cursor);
  }
}
