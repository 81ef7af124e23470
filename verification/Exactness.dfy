/**
 The rules that Replies.dfy, Logins.dfy and Renewal.dfy ask of a run are exactly what is needed: at every
 state that has been reached by the rule, the next hang-up, or the next command line, keeps the
 rule if and only if no continuation by the rule breaks the result.
 */
module Exactness {
  import C = Clients
  import opened Commands
  import opened Paths
  import opened HostPort
  import opened Descriptors
  import opened Server
  import opened Logs
  import opened Rounds
  import opened Transfers
  import opened Replies
  import opened Logins
  import opened Renewal
  import opened Conversations
  import opened Scenarios

  /** A client that says what the other side of these runs has to say. */
  const SOMEBODY := Wish("a@b", Endpoint(1, 0, 0, 0, 1025), "f")

  lemma SomebodyIsProper()
    ensures Proper(SOMEBODY)
  {
    assert "a@b"[1] == '@';
  }

  const NO_ANSWER := Willing(NOWHERE, [])

  lemma OutstandingOne(ws: seq<Worker>, fd: nat) returns (i: nat)
    requires HasOutstanding(ws, fd)
    ensures i < |ws| && ws[i].fd == fd && Outstanding(ws[i])
  {
    i :| 0 <= i < |ws| && ws[i].fd == fd && Outstanding(ws[i]);
  }

  /** What holds of every reachable state, whatever the run. */
  lemma ReachedAny(rule: Rule, s: Server, acts: seq<Action>, m: Server)
    requires Init(s) && LeadsUnder(rule, s, acts, m)
    ensures Kept(m) && AllFaithful(m)
  {
    UnderLeads(rule, s, acts, m);
    KeptInit(s);
    AlwaysKept(s, acts, m);
    AlwaysFaithful(s, acts, m);
  }

  /** A run that goes on by a step that keeps the rule is a run by the rule. */
  lemma GoesOn(rule: Rule, s: Server, acts: seq<Action>, m: Server, a: Action, t: Server) returns (all: seq<Action>)
    requires LeadsUnder(rule, s, acts, m) && Enabled(m, a) && Keeps(rule, m, a) && Reaches(rule, Next(m, a), t)
    ensures LeadsUnder(rule, s, all, t)
  {
    hide Next, Enabled, Keeps;
    OneStep(rule, m, a);
    Onward(rule, m, Next(m, a), t);
    var rest :| LeadsUnder(rule, m, rest, t);
    all := acts + rest;
    UnderConcat(rule, s, acts, m, rest, t);
  }

  // ---------- A hang-up under a worker ----------

  /** After the hang-up the round ends, and the worker, if it is still busy, comes to its 226. */
  lemma WorkerOutlives(rule: Rule, m: Server, i: nat) returns (t: Server, w: Worker)
    requires Kept(m) && Enabled(m, HangUp) && m.loop.cursor == rule.fd && !rule.Eager?
    requires i < |m.workers| && m.workers[i].fd == rule.fd && Outstanding(m.workers[i]) && Faithful(m.workers[i])
    ensures Reaches(rule, Next(m, HangUp), t) && Kept(t) && t.loop.Selecting?
    ensures w.phase == Sent226 && w.fd == rule.fd
    ensures t.workers == m.workers[i := w] && rule.fd !in t.table.fds && m.listenFd == t.listenFd < rule.fd < |t.clients|
    ensures t.clients[rule.fd] == C.EMPTY.(status := t.clients[rule.fd].status)
  {
    var fd := rule.fd;
    assert fd in m.table.fds && fd > m.listenFd;
    var n := Next(m, HangUp);
    KeptNext(m, HangUp);
    assert n.workers == m.workers && fd !in n.table.fds && n.clients[fd] == C.EMPTY;
    hide Kept, Faithful, Reaches;
    var n1 := EndsRound(rule, n, NO_ANSWER);
    StaysKept(rule, n, n1);
    if Busy(m.workers[i]) {
      t, w := Completes(rule, n1, i);
      StaysKept(rule, n1, t);
      Onward(rule, n, n1, t);
    } else {
      t, w := n1, m.workers[i];
      assert m.workers[i := w] == m.workers;
    }
  }

  /** The next client is accepted on the same descriptor, with the old worker still to release it. */
  lemma Reconnects(rule: Rule, m: Server, i: nat) returns (t: Server, w: Worker)
    requires Kept(m) && Enabled(m, HangUp) && m.loop.cursor == rule.fd && !rule.Eager?
    requires i < |m.workers| && m.workers[i].fd == rule.fd && Outstanding(m.workers[i]) && Faithful(m.workers[i])
    ensures Reaches(rule, Next(m, HangUp), t)
    ensures Idle(t, rule.fd, Greeted(C.EMPTY), m.workers[i := w]) && w.phase == Sent226 && w.fd == rule.fd
    ensures t.log != [] && t.log[|t.log| - 1] == Event(rule.fd, C.Say(C.Welcome))
  {
    var fd := rule.fd;
    var n;
    n, w := WorkerOutlives(rule, m, i);
    ConnectOne(rule, n, fd);
    t := n.(clients := n.clients[fd := Greeted(n.clients[fd])], table := Add(n.table, fd),
            log := n.log + Stamp(fd, [C.Say(C.Welcome)]));
    assert Greeted(n.clients[fd]) == Greeted(C.EMPTY);
    Onward(rule, Next(m, HangUp), n, t);
  }

  lemma WelcomeIsNoLogin(log: seq<Event>, fd: nat)
    requires log != [] && log[|log| - 1] == Event(fd, C.Say(C.Welcome))
    ensures !LoggedIn(log, fd)
  {
    var k := |log| - 1;
    assert forall i | 0 <= i < k :: !SameConnection(log, fd, i);
  }

  /** A connected client's session is available although it has not logged in. */
  ghost predicate LoginBypassed(t: Server, fd: nat) {
    fd < |t.clients| && fd in t.table.fds && t.clients[fd].status == C.Available && !LoggedIn(t.log, fd)
  }

  /** The old worker hands the next client an available session. */
  lemma Bypass(rule: Rule, m: Server, i: nat) returns (t: Server)
    requires Kept(m) && Enabled(m, HangUp) && m.loop.cursor == rule.fd && !rule.Eager?
    requires i < |m.workers| && m.workers[i].fd == rule.fd && Outstanding(m.workers[i]) && Faithful(m.workers[i])
    ensures Reaches(rule, Next(m, HangUp), t) && LoginBypassed(t, rule.fd)
  {
    var n, w := Reconnects(rule, m, i);
    hide Reaches, Kept, LoggedIn;
    WelcomeIsNoLogin(n.log, rule.fd);
    MoveOne(rule, n, i, Release);
    t := MovedServer(n, i, Release);
    assert t.log == n.log;
    Onward(rule, Next(m, HangUp), n, t);
  }

  /**
   Login safety needs just this order: a hang-up keeps it in every continuation exactly when no
   worker of the session is outstanding. When one is, some continuation makes the next client
   on the descriptor available without any login.
   */
  lemma LoginSafeIff(s: Server, acts: seq<Action>, m: Server, fd: nat)
    requires Init(s) && LeadsUnder(Orderly(fd), s, acts, m) && Enabled(m, HangUp) && m.loop.cursor == fd
    ensures !HasOutstanding(m.workers, fd) <==>
              forall t :: Reaches(Orderly(fd), Next(m, HangUp), t) ==> LoginSafe(t, fd)
    ensures HasOutstanding(m.workers, fd) ==>
              exists t :: Reaches(Orderly(fd), Next(m, HangUp), t) && LoginBypassed(t, fd)
  {
    if HasOutstanding(m.workers, fd) {
      ReachedAny(Orderly(fd), s, acts, m);
      var i := OutstandingOne(m.workers, fd);
      var t := Bypass(Orderly(fd), m, i);
      hide Reaches, Next, LoggedIn;
      assert !LoginSafe(t, fd);
    } else {
      forall t | Reaches(Orderly(fd), Next(m, HangUp), t)
        ensures LoginSafe(t, fd)
      {
        var all := GoesOn(Orderly(fd), s, acts, m, HangUp, t);
        LoginSafety(s, all, t, fd);
      }
    }
  }

  ghost predicate InUseIffMember(t: Server, fd: nat) {
    fd < |t.clients| && (t.clients[fd].status != C.Disconnected <==> fd in t.table.fds && fd != t.listenFd)
  }

  /** The same order is exactly what the agreement of the table needs. */
  lemma TableAgreesIff(s: Server, acts: seq<Action>, m: Server, fd: nat)
    requires Init(s) && LeadsUnder(Orderly(fd), s, acts, m) && Enabled(m, HangUp) && m.loop.cursor == fd
    ensures !HasOutstanding(m.workers, fd) <==>
              forall t :: Reaches(Orderly(fd), Next(m, HangUp), t) ==> InUseIffMember(t, fd)
  {
    var rule := Orderly(fd);
    ReachedAny(rule, s, acts, m);
    if HasOutstanding(m.workers, fd) {
      var i := OutstandingOne(m.workers, fd);
      var n, w := WorkerOutlives(rule, m, i);
      MoveOne(rule, n, i, Release);
      var t := MovedServer(n, i, Release);
      Onward(rule, Next(m, HangUp), n, t);
      hide Reaches, Next, Kept;
      assert !InUseIffMember(t, fd);
    } else {
      forall t | Reaches(rule, Next(m, HangUp), t)
        ensures InUseIffMember(t, fd)
      {
        var all := GoesOn(rule, s, acts, m, HangUp, t);
        TableAgreement(s, all, t, fd);
      }
    }
  }

  ghost predicate SnapshotHolds(t: Server, fd: nat) {
    t.loop.Deciding? && t.loop.cursor == fd ==> fd < |t.clients| && Stable(t.loop.snapshot, t.clients[fd].status)
  }

  /** And exactly what the stability of the snapshot needs. */
  lemma SnapshotHoldsIff(s: Server, acts: seq<Action>, m: Server, fd: nat)
    requires Init(s) && LeadsUnder(Orderly(fd), s, acts, m) && Enabled(m, HangUp) && m.loop.cursor == fd
    ensures !HasOutstanding(m.workers, fd) <==>
              forall t :: Reaches(Orderly(fd), Next(m, HangUp), t) ==> SnapshotHolds(t, fd)
  {
    var rule := Orderly(fd);
    ReachedAny(rule, s, acts, m);
    if HasOutstanding(m.workers, fd) {
      var i := OutstandingOne(m.workers, fd);
      var n, w := Reconnects(rule, m, i);
      var t := ReleasedUnderSnapshot(rule, n, i);
      Onward(rule, Next(m, HangUp), n, t);
      hide Reaches, Next, Kept;
      assert !SnapshotHolds(t, fd);
    } else {
      forall t | Reaches(rule, Next(m, HangUp), t)
        ensures SnapshotHolds(t, fd)
      {
        var all := GoesOn(rule, s, acts, m, HangUp, t);
        Reached(s, all, t, fd);
      }
    }
  }

  lemma ReleasedUnderSnapshot(rule: Rule, s: Server, i: nat) returns (t: Server)
    requires Idle(s, rule.fd, Greeted(C.EMPTY), s.workers) && rule.Orderly?
    requires i < |s.workers| && s.workers[i].phase == Sent226 && s.workers[i].fd == rule.fd
    ensures Reaches(rule, s, t) && t.loop.Deciding? && t.loop.cursor == rule.fd && rule.fd < |t.clients|
    ensures t.loop.snapshot == C.Connected && t.clients[rule.fd].status == C.Available
  {
    var fd := rule.fd;
    assert NotBlank("?") by { assert "?"[0] != ' '; }
    ComeTo(rule, s, fd);
    var m := s.(loop := Scanning({fd}, fd, []));
    OneStep(rule, m, Recv("?"));
    var d := Next(m, Recv("?"));
    MoveOne(rule, d, i, Release);
    t := MovedServer(d, i, Release);
    Onward(rule, s, m, d);
    Onward(rule, s, d, t);
  }

  // ---------- A hang-up before the 226 ----------

  /** The next client is accepted on the same descriptor while the old worker is still busy. */
  lemma ReconnectsBusy(rule: Rule, m: Server, env: C.Env) returns (t: Server)
    requires Kept(m) && Enabled(m, HangUp) && m.loop.cursor == rule.fd && !rule.Eager?
    ensures Reaches(rule, Next(m, HangUp), t) && t.workers == m.workers && |t.clients| == |m.clients|
    ensures t.log != [] && t.log[|t.log| - 1] == Event(rule.fd, C.Say(C.Welcome))
  {
    var fd := rule.fd;
    assert fd in m.table.fds && fd > m.listenFd;
    var n := Next(m, HangUp);
    KeptNext(m, HangUp);
    assert n.workers == m.workers && fd !in n.table.fds;
    hide Reaches, Attentive, Directories.DirectoriesSound;
    var n1 := EndsRound(rule, n, env);
    ConnectOne(rule, n1, fd);
    t := n1.(clients := n1.clients[fd := Greeted(n1.clients[fd])], table := Add(n1.table, fd),
             log := n1.log + Stamp(fd, [C.Say(C.Welcome)]));
    Onward(rule, n, n1, t);
  }

  /** The present connection has had a 226 for which it had no 150. */
  ghost predicate StrayComplete(s: Server, fd: nat) {
    exists i: nat :: WelcomedAt(s.log, fd, i)
      && Count(s.log[i..], fd, C.Say(C.Complete)) > Count(s.log[i..], fd, C.Say(C.Opening))
  }

  lemma StrayAfterWelcome(s: Server, log: seq<Event>, fd: nat)
    requires log != [] && log[|log| - 1] == Event(fd, C.Say(C.Welcome))
    requires s.log == log + [Event(fd, C.Say(C.Complete))]
    ensures StrayComplete(s, fd)
  {
    var i: nat := |log| - 1;
    assert s.log[i..] == [log[i], Event(fd, C.Say(C.Complete))];
    CountTwo(log[i], Event(fd, C.Say(C.Complete)), fd, C.Say(C.Complete));
    CountTwo(log[i], Event(fd, C.Say(C.Complete)), fd, C.Say(C.Opening));
    assert WelcomedAt(s.log, fd, i);
  }

  lemma CountTwo(e: Event, f: Event, fd: nat, note: C.Note)
    ensures Count([e, f], fd, note) == (if e == Event(fd, note) then 1 else 0) + if f == Event(fd, note) then 1 else 0
  {
    var log := [e, f];
    assert log[..1] == [e] && [e][..0] == [];
    assert Count([e], fd, note) == Count([e][..0], fd, note) + if e == Event(fd, note) then 1 else 0;
    assert Count(log, fd, note) == Count(log[..1], fd, note) + if f == Event(fd, note) then 1 else 0;
  }

  lemma StrayIsNotConserved(s: Server, fd: nat)
    requires StrayComplete(s, fd)
    ensures !ConnectionConserved(s, fd)
  {
    hide Count, SameConnection;
    var i: nat :| WelcomedAt(s.log, fd, i)
      && Count(s.log[i..], fd, C.Say(C.Complete)) > Count(s.log[i..], fd, C.Say(C.Opening));
    assert s.log[i..|s.log|] == s.log[i..];
  }

  /**
   Conservation within a connection needs just its rule: a hang-up keeps it in every
   continuation exactly when no worker of the session has still to send its 226. When one has,
   some continuation sends that 226 to the next client, which has had no 150.
   */
  lemma ConnectionConservedIff(s: Server, acts: seq<Action>, m: Server, fd: nat)
    requires Init(s) && LeadsUnder(Answered(fd), s, acts, m) && Enabled(m, HangUp) && m.loop.cursor == fd
    ensures !HasBusy(m.workers, fd) <==>
              forall t :: Reaches(Answered(fd), Next(m, HangUp), t) ==> ConnectionConserved(t, fd)
    ensures HasBusy(m.workers, fd) ==>
              exists t :: Reaches(Answered(fd), Next(m, HangUp), t) && StrayComplete(t, fd)
  {
    var rule := Answered(fd);
    hide Reaches, Next, StrayComplete, ConnectionConserved, LeadsUnder;
    ReachedAny(rule, s, acts, m);
    if HasBusy(m.workers, fd) {
      var i :| 0 <= i < |m.workers| && m.workers[i].fd == fd && Busy(m.workers[i]);
      hide Kept, Faithful;
      var n := ReconnectsBusy(rule, m, NO_ANSWER);
      var t, w := Completes(rule, n, i);
      StrayAfterWelcome(t, n.log, fd);
      Onward(rule, Next(m, HangUp), n, t);
      StrayIsNotConserved(t, fd);
    } else {
      hide Kept, AllFaithful;
      forall t | Reaches(rule, Next(m, HangUp), t)
        ensures ConnectionConserved(t, fd)
      {
        var all := GoesOn(rule, s, acts, m, HangUp, t);
        ConnectionConservation(s, all, t, fd);
      }
    }
  }

  // ---------- A command line before a worker begins ----------

  /** Two completions with nothing in between. */
  lemma NotFresh(log: seq<Event>, fd: nat)
    requires |log| >= 2 && log[|log| - 2] == log[|log| - 1] == Event(fd, C.Say(C.Complete))
    ensures !Fresh(log, fd)
  {
    assert CompletedAt(log, fd, |log| - 2) && CompletedAt(log, fd, |log| - 1);
  }

  /** Right behind a completion a busy worker of the session completes, too. */
  lemma CompletesAgain(rule: Rule, s: Server, fd: nat, i: nat) returns (t: Server)
    requires s.log != [] && s.log[|s.log| - 1] == Event(fd, C.Say(C.Complete)) && fd < |s.clients| && !rule.Eager?
    requires i < |s.workers| && s.workers[i].fd == fd && Busy(s.workers[i]) && Faithful(s.workers[i])
    ensures Reaches(rule, s, t) && !Fresh(t.log, fd)
  {
    hide Reaches, Fresh, Faithful;
    var w;
    t, w := Completes(rule, s, i);
    NotFresh(t.log, fd);
  }

  /** A command between the creation of a worker and its beginning, whose act is `d`'s next step. */
  ghost predicate ActsMeanwhile(d: Server, fd: nat) {
    && d.loop.Deciding? && d.loop.cursor == fd && UsesConnection(d.loop.line) && d.loop.snapshot == C.Available
    && fd < |d.clients| && d.root != "" && Rooted(d.clients[fd].dir)
    && d.clients[fd].status == C.Available && d.clients[fd].mode != C.NoMode
  }

  /** A LIST completes at once. */
  lemma ListsFirst(d: Server, fd: nat) returns (n: Server)
    requires ActsMeanwhile(d, fd) && VerbOf(d.loop.line) == LIST
    ensures Reaches(Prompt(fd), d, n) && n.workers == d.workers && |n.clients| == |d.clients|
    ensures n.log != [] && n.log[|n.log| - 1] == Event(fd, C.Say(C.Complete))
  {
    var env := Willing(NOWHERE, []);
    ListLine(d.root, d.clients[fd], d.loop.line, NOWHERE, []);
    hide C.Interpret, HasSpawned, HasOutstanding, VerbOf;
    assert Keeps(Prompt(fd), d, Act(env));
    OneStep(Prompt(fd), d, Act(env));
    hide Reaches;
    n := Next(d, Act(env));
  }

  /** A RETR or STOR creates a second worker. */
  lemma TransfersFirst(d: Server, fd: nat) returns (n: Server)
    requires ActsMeanwhile(d, fd) && VerbOf(d.loop.line) != LIST
    ensures Reaches(Prompt(fd), d, n) && |n.clients| == |d.clients|
    ensures |n.workers| == |d.workers| + 1 && n.workers[..|d.workers|] == d.workers
    ensures var w := n.workers[|d.workers|]; w.fd == fd && Busy(w) && Faithful(w)
  {
    var env := Willing(NOWHERE, []);
    TransferLine(d.root, d.clients[fd], d.loop.line, NOWHERE, []);
    hide C.Interpret, HasSpawned, HasOutstanding, VerbOf;
    assert Keeps(Prompt(fd), d, Act(env));
    OneStep(Prompt(fd), d, Act(env));
    hide Reaches;
    n := Next(d, Act(env));
    NewIsFaithful(n.workers[|d.workers|]);
  }

  lemma NewIsFaithful(w: Worker)
    requires w == NewWorker(w.fd, w.kind, w.source)
    ensures Faithful(w)
  {
    assert w.source[..0] == [];
  }

  /** The worker completes, and so does the command or the worker that it has created. */
  lemma CompleteBoth(d: Server, fd: nat, i: nat) returns (t: Server)
    requires ActsMeanwhile(d, fd)
    requires i < |d.workers| && d.workers[i].fd == fd && Busy(d.workers[i]) && Faithful(d.workers[i])
    ensures Reaches(Prompt(fd), d, t) && !Fresh(t.log, fd)
  {
    hide Reaches, Fresh, Faithful, VerbOf;
    var rule := Prompt(fd);
    if VerbOf(d.loop.line) == LIST {
      var n := ListsFirst(d, fd);
      t := CompletesAgain(rule, n, fd, i);
      Onward(rule, d, n, t);
    } else {
      var n := TransfersFirst(d, fd);
      assert n.workers[i] == n.workers[..|d.workers|][i];
      var n', w := Completes(rule, n, i);
      assert n'.workers[|d.workers|] == n.workers[|d.workers|];
      t := CompletesAgain(rule, n', fd, |d.workers|);
      Onward(rule, d, n, n');
      Onward(rule, d, n', t);
    }
  }

  /**
   A fresh data connection for every transfer needs just this promptness: reading a command line
   keeps it in every continuation exactly when the line uses no data connection or no worker of
   the session has still to begin.
   */
  lemma FreshIffPromptLine(s: Server, acts: seq<Action>, m: Server, line: string, fd: nat)
    requires Init(s) && LeadsUnder(Prompt(fd), s, acts, m) && Enabled(m, Recv(line)) && m.loop.cursor == fd
    ensures !(HasSpawned(m.workers, fd) && UsesConnection(line)) <==>
              forall t :: Reaches(Prompt(fd), Next(m, Recv(line)), t) ==> Fresh(t.log, fd)
  {
    hide Next, Enabled, Reaches, LeadsUnder, Fresh, UsesConnection, HasSpawned, Init;
    if HasSpawned(m.workers, fd) && UsesConnection(line) {
      var t := BreaksFresh(s, acts, m, line, fd);
    } else {
      forall t | Reaches(Prompt(fd), Next(m, Recv(line)), t)
        ensures Fresh(t.log, fd)
      {
        assert fd < MAX_CLIENT by { InRange(s, acts, m, line, fd); }
        assert Keeps(Prompt(fd), m, Recv(line));
        var all := GoesOn(Prompt(fd), s, acts, m, Recv(line), t);
        FreshConnection(s, all, t, fd);
      }
    }
  }

  lemma InRange(s: Server, acts: seq<Action>, m: Server, line: string, fd: nat)
    requires Init(s) && LeadsUnder(Prompt(fd), s, acts, m) && Enabled(m, Recv(line)) && m.loop.cursor == fd
    ensures fd < MAX_CLIENT
  {
    ReachedAny(Prompt(fd), s, acts, m);
    hide LeadsUnder, AllFaithful, Directories.DirectoriesSound, Attentive;
  }

  /** The continuation that completes twice. */
  lemma BreaksFresh(s: Server, acts: seq<Action>, m: Server, line: string, fd: nat) returns (t: Server)
    requires Init(s) && LeadsUnder(Prompt(fd), s, acts, m) && Enabled(m, Recv(line)) && m.loop.cursor == fd
    requires HasSpawned(m.workers, fd) && UsesConnection(line)
    ensures Reaches(Prompt(fd), Next(m, Recv(line)), t) && !Fresh(t.log, fd)
  {
    InRange(s, acts, m, line, fd);
    ReachedAny(Prompt(fd), s, acts, m);
    ReachedReady(s, acts, m, fd);
    var i :| 0 <= i < |m.workers| && m.workers[i].fd == fd && m.workers[i].phase == Spawned;
    assert WorkerReady(m.workers[i], m.clients[fd], TrackOf(m.log, fd));
    assert Directories.GoodClient(m.root, m.clients[fd]);
    hide TrackOf, Fresh, SessionSound, Shaped, UsesConnection, Reaches;
    t := CompleteBoth(Next(m, Recv(line)), fd, i);
  }

  /** No worker of the descriptor has still to begin once the only outstanding one has sent its 226. */
  lemma NoneToBegin(m: Server, fd: nat, i: nat, w: Worker)
    requires SessionReady(m, fd) && i < |m.workers| && m.workers[i].fd == fd && Outstanding(m.workers[i])
    requires w.phase == Sent226 && w.fd == fd
    ensures !HasSpawned(m.workers[i := w], fd)
  {
    hide TrackOf, ModeReady, LoopReady, WorkerReady;
    var ws := m.workers;
    forall j | 0 <= j < |ws| && j != i && ws[j].fd == fd
      ensures !Outstanding(ws[j])
    {
      var low, high := if j < i then j else i, if j < i then i else j;
      assert !Outstanding(ws[low]) || !Outstanding(ws[high]);
    }
  }

  /**
   The next client has a transfer of its own running when the old worker releases the session;
   so it can LIST over a second PORT, and then its transfer completes without a further one.
   */
  lemma ReleasedTooLate(s: Server, fd: nat, ws: seq<Worker>, i: nat) returns (t: Server)
    requires Idle(s, fd, Greeted(C.EMPTY), ws) && !HasSpawned(ws, fd)
    requires i < |ws| && ws[i].fd == fd && ws[i].phase == Sent226
    ensures Reaches(Prompt(fd), s, t) && !Fresh(t.log, fd)
  {
    var rule := Prompt(fd);
    SomebodyIsProper();
    hide Proper, Reaches, Fresh;
    var s1, c := Asks(rule, s, fd, ws, SOMEBODY, C.Send, []);
    var s2, ws2 := Overlap(s1, fd, c, ws, i);
    t := ListsOverSecond(s2, fd, C.Released(C.Started(c)), ws2, |ws|);
    Onward(rule, s, s1, s2);
    Onward(rule, s, s2, t);
  }

  /** The new worker begins, and then the old one releases the session. */
  lemma Overlap(s: Server, fd: nat, c: C.Client, ws: seq<Worker>, i: nat) returns (t: Server, ws': seq<Worker>)
    requires Idle(s, fd, c, ws + [NewWorker(fd, C.Send, [])]) && !HasSpawned(ws, fd)
    requires i < |ws| && ws[i].fd == fd && ws[i].phase == Sent226
    ensures Reaches(Prompt(fd), s, t) && Idle(t, fd, C.Released(C.Started(c)), ws') && !HasSpawned(ws', fd)
    ensures |ws'| == |ws| + 1 && ws'[|ws|] == NewWorker(fd, C.Send, []).(phase := Copying)
  {
    var rule, j := Prompt(fd), |ws|;
    MoveOne(rule, s, j, Begin);
    var m := MovedServer(s, j, Begin);
    MoveOne(rule, m, i, Release);
    t := MovedServer(m, i, Release);
    ws' := t.workers;
    assert forall k | 0 <= k < j && k != i :: ws'[k] == ws[k];
    Onward(rule, s, m, t);
  }

  lemma ListsOverSecond(s: Server, fd: nat, c: C.Client, ws: seq<Worker>, j: nat) returns (t: Server)
    requires Idle(s, fd, c, ws) && c.status == C.Available && Rooted(c.dir) && !HasSpawned(ws, fd)
    requires j < |ws| && ws[j] == NewWorker(fd, C.Send, []).(phase := Copying)
    ensures Reaches(Prompt(fd), s, t) && !Fresh(t.log, fd)
  {
    var rule, x := Prompt(fd), SOMEBODY;
    SomebodyIsProper();
    hide Proper, Reaches, Fresh, HasSpawned, Step, Idle;
    var s1 := SaysPort(rule, s, fd, c, ws, x, NO_ANSWER);
    t := ListsAndCompletes(s1, fd, c.(target := x.e, mode := C.PortMode), ws, j);
    Onward(rule, s, s1, t);
  }

  lemma ListsAndCompletes(s: Server, fd: nat, c: C.Client, ws: seq<Worker>, j: nat) returns (t: Server)
    requires Idle(s, fd, c, ws) && !HasSpawned(ws, fd)
    requires c.status == C.Available && c.mode != C.NoMode && Rooted(c.dir)
    requires j < |ws| && ws[j] == NewWorker(fd, C.Send, []).(phase := Copying)
    ensures Reaches(Prompt(fd), s, t) && !Fresh(t.log, fd)
  {
    var rule := Prompt(fd);
    VerbOfList();
    ListLine(s.root, c, "LIST", NOWHERE, []);
    hide Reaches, Fresh, HasSpawned, NotBlank, Step, Rooted;
    var m := Sends(rule, s, fd, c, ws, "LIST", Willing(NOWHERE, []));
    assert m.log[|m.log| - 1] == Event(fd, C.Say(C.Complete)) && m.workers == ws && fd < |m.clients|;
    hide Idle;
    t := CompletesAgain(rule, m, fd, j);
    Onward(rule, s, m, t);
  }

  /** The order that promptness includes is needed as well: a hang-up keeps the result in the same way. */
  lemma FreshIffOrderlyHangUp(s: Server, acts: seq<Action>, m: Server, fd: nat)
    requires Init(s) && LeadsUnder(Prompt(fd), s, acts, m) && Enabled(m, HangUp) && m.loop.cursor == fd
    ensures !HasOutstanding(m.workers, fd) <==>
              forall t :: Reaches(Prompt(fd), Next(m, HangUp), t) ==> Fresh(t.log, fd)
  {
    var rule := Prompt(fd);
    ReachedAny(rule, s, acts, m);
    ReachedReady(s, acts, m, fd);
    if HasOutstanding(m.workers, fd) {
      var i := OutstandingOne(m.workers, fd);
      var n, w := Reconnects(rule, m, i);
      NoneToBegin(m, fd, i, w);
      hide Reaches, Next, Kept, SessionSound, SessionReady, Fresh, HasSpawned;
      var t := ReleasedTooLate(n, fd, m.workers[i := w], i);
      Onward(rule, Next(m, HangUp), n, t);
      assert !Fresh(t.log, fd);
    } else {
      hide Kept, SessionSound, SessionReady, Fresh;
      forall t | Reaches(rule, Next(m, HangUp), t)
        ensures Fresh(t.log, fd)
      {
        var all := GoesOn(rule, s, acts, m, HangUp, t);
        FreshConnection(s, all, t, fd);
      }
    }
  }

  // ---------- Such states are reached ----------

  /** From the start: a session with an outstanding worker whose hang-up the main loop can meet, in a run by either rule. */
  lemma HangUpCanComeEarly(s: Server, fd: nat) returns (acts: seq<Action>, m: Server)
    requires Init(s) && s.listenFd < fd < MAX_CLIENT
    ensures LeadsUnder(Prompt(fd), s, acts, m) && LeadsUnder(Orderly(fd), s, acts, m)
    ensures Enabled(m, HangUp) && m.loop.cursor == fd && HasOutstanding(m.workers, fd)
  {
    SomebodyIsProper();
    var front, n := FileDelivered(s, fd, SOMEBODY, []);
    ComeTo(Prompt(fd), n, fd);
    m := n.(loop := Scanning({fd}, fd, []));
    var back :| LeadsUnder(Prompt(fd), n, back, m);
    acts := front + back;
    UnderConcat(Prompt(fd), s, front, n, back, m);
    Relax(Prompt(fd), Orderly(fd), s, acts, m);
    assert Outstanding(m.workers[0]);
  }

  /** And one whose next command line comes before its worker has begun. */
  lemma LineCanComeEarly(s: Server, fd: nat) returns (acts: seq<Action>, m: Server)
    requires Init(s) && s.listenFd < fd < MAX_CLIENT
    ensures LeadsUnder(Prompt(fd), s, acts, m)
    ensures AtClient(m) && m.loop.cursor == fd && HasSpawned(m.workers, fd)
  {
    SomebodyIsProper();
    var n, c := AsksFirst(Prompt(fd), s, fd, SOMEBODY, C.Send, []);
    ComeTo(Prompt(fd), n, fd);
    m := n.(loop := Scanning({fd}, fd, []));
    Onward(Prompt(fd), s, n, m);
    acts :| LeadsUnder(Prompt(fd), s, acts, m);
    assert m.workers[0].phase == Spawned;
  }

  /** A run up to a step, the step, and a continuation. */
  lemma RunThrough(rule: Rule, s: Server, front: seq<Action>, m: Server, a: Action, t: Server) returns (all: seq<Action>)
    requires LeadsUnder(rule, s, front, m) && Enabled(m, a) && Reaches(rule, Next(m, a), t)
    ensures Leads(s, all, t)
  {
    hide Next, Enabled;
    var back :| LeadsUnder(rule, Next(m, a), back, t);
    UnderLeads(rule, s, front, m);
    UnderLeads(rule, Next(m, a), back, t);
    all := front + ([a] + back);
    assert ([a] + back)[1..] == back;
    LeadsConcat(s, front, m, [a] + back, t);
  }

  /** From the start, then: a run that makes a client available which has never logged in. */
  lemma LoginCanBeBypassed(s: Server, fd: nat) returns (acts: seq<Action>, t: Server)
    requires Init(s) && s.listenFd < fd < MAX_CLIENT
    ensures Leads(s, acts, t) && LoginBypassed(t, fd)
  {
    var front, m := HangUpCanComeEarly(s, fd);
    hide Next, Enabled, LoggedIn, Leads, LeadsUnder, Reaches;
    LoginSafeIff(s, front, m, fd);
    t :| Reaches(Orderly(fd), Next(m, HangUp), t) && LoginBypassed(t, fd);
    acts := RunThrough(Orderly(fd), s, front, m, HangUp, t);
  }

  /** A run in which a client gets the 226 of its predecessor, without a 150 of its own. */
  lemma StrayReplyCanCome(s: Server, fd: nat) returns (acts: seq<Action>, t: Server)
    requires Init(s) && s.listenFd < fd < MAX_CLIENT
    ensures Leads(s, acts, t) && StrayComplete(t, fd)
  {
    var front, m := LineCanComeEarly(s, fd);
    Relax(Prompt(fd), Answered(fd), s, front, m);
    SpawnedIsBusy(m.workers, fd);
    hide Next, StrayComplete, Leads, LeadsUnder, Reaches, HasBusy, HasSpawned;
    ConnectionConservedIff(s, front, m, fd);
    t :| Reaches(Answered(fd), Next(m, HangUp), t) && StrayComplete(t, fd);
    acts := RunThrough(Answered(fd), s, front, m, HangUp, t);
  }

  lemma SpawnedIsBusy(ws: seq<Worker>, fd: nat)
    requires HasSpawned(ws, fd)
    ensures HasBusy(ws, fd)
  {
    var i :| 0 <= i < |ws| && ws[i].fd == fd && ws[i].phase == Spawned;
    assert Busy(ws[i]);
  }

  /** And a run that is orderly on the session in which two transfers complete over one PORT. */
  lemma ConnectionCanServeTwice(s: Server, fd: nat) returns (acts: seq<Action>, t: Server)
    requires Init(s) && s.listenFd < fd < MAX_CLIENT
    ensures LeadsUnder(Orderly(fd), s, acts, t) && !Fresh(t.log, fd)
  {
    hide Next, Fresh, Keeps, Reaches, LeadsUnder, Enabled, AtClient, HasSpawned, UsesConnection;
    var front, m := LineCanComeEarly(s, fd);
    ListCanCome(m);
    FreshIffPromptLine(s, front, m, "LIST", fd);
    t :| Reaches(Prompt(fd), Next(m, Recv("LIST")), t) && !Fresh(t.log, fd);
    Relax(Prompt(fd), Orderly(fd), s, front, m);
    RelaxReaches(fd, Next(m, Recv("LIST")), t);
    RecvIsOrderly(m, "LIST", fd);
    acts := GoesOn(Orderly(fd), s, front, m, Recv("LIST"), t);
  }

  lemma ListCanCome(m: Server)
    requires AtClient(m)
    ensures Enabled(m, Recv("LIST")) && UsesConnection("LIST")
  {
    VerbOfList();
    hide VerbOf, NotBlank;
  }

  lemma RelaxReaches(fd: nat, s: Server, t: Server)
    requires Reaches(Prompt(fd), s, t)
    ensures Reaches(Orderly(fd), s, t)
  {
    var acts :| LeadsUnder(Prompt(fd), s, acts, t);
    Relax(Prompt(fd), Orderly(fd), s, acts, t);
  }

  lemma RecvIsOrderly(m: Server, line: string, fd: nat)
    ensures Keeps(Orderly(fd), m, Recv(line))
  {
  }
}
