/**
 Reply conservation over all runs: every 150 is answered by a 226, still being worked on, or
 given up, so the 226s never outnumber the 150s (RFC 959, section 5.4). The same within one
 connection, and exactly when it holds there.
 */
module Replies {
  import C = Clients
  import opened Paths
  import opened Server
  import opened Logs
  import opened Directories
  import opened Rounds

  /** How many workers of `fd` have not yet sent their 226 and not failed. */
  function BusyOf(ws: seq<Worker>, fd: nat): nat {
    if ws == [] then 0
    else BusyOf(ws[..|ws| - 1], fd) + One(ws[|ws| - 1], fd)
  }

  function One(w: Worker, fd: nat): nat {
    if w.fd == fd && Busy(w) then 1 else 0
  }

  lemma {:induction false} BusyUpdate(ws: seq<Worker>, i: nat, w: Worker, fd: nat)
    requires i < |ws|
    ensures BusyOf(ws[i := w], fd) + One(ws[i], fd) == BusyOf(ws, fd) + One(w, fd)
    decreases |ws|
  {
    var last := |ws| - 1;
    if i == last {
      assert ws[i := w][..last] == ws[..last];
    } else {
      BusyUpdate(ws[..last], i, w, fd);
      assert ws[i := w][..last] == ws[..last][i := w];
    }
  }

  lemma BusySnoc(ws: seq<Worker>, w: Worker, fd: nat)
    ensures BusyOf(ws + [w], fd) == BusyOf(ws, fd) + One(w, fd)
  {
    assert (ws + [w])[..|ws|] == ws;
  }

  ghost predicate BalancedAt(t: Track, busy: nat) {
    t.ahead && t.began == t.completed + t.lost + busy
  }

  ghost predicate Balanced(s: Server) {
    forall fd: nat :: BalancedAt(TrackOf(s.log, fd), BusyOf(s.workers, fd))
  }

  /** What a shape means for the balance. */
  lemma ShapeBalance(t: Track, busy: nat, c: C.Client, r: C.Result)
    requires C.Shape(c, r) && BalancedAt(t, busy)
    ensures BalancedAt(AfterAll(t, r.notes), busy + if r.spawn.Some? then 1 else 0)
    ensures AfterAll(t, r.notes).even == t.even
  {
    if r.spawn.Some? {
      AfterOne(t, C.Say(C.Opening));
    } else if C.Plain(r.notes) {
      AfterPlain(t, r.notes);
    } else if C.FailedAfterOpening(r.notes) {
      AfterFailed(t, r.notes);
    } else if C.Listed(r.notes) {
      AfterListed(t, r.notes);
    } else {
      assert r.notes == [r.notes[0]];
      AfterOne(t, r.notes[0]);
    }
  }

  lemma LoginBalance(t: Track, busy: nat, c: C.Client, r: C.Result)
    requires C.ConnectedShape(c, r) || C.PasswordShape(c, r)
    requires BalancedAt(t, busy)
    ensures BalancedAt(AfterAll(t, r.notes), busy)
    ensures AfterAll(t, r.notes).even == t.even
  {
    if C.Plain(r.notes) {
      AfterPlain(t, r.notes);
    } else {
      AfterOne(t, C.Say(C.UserOk));
      AfterOne(t, C.Say(C.PassOk));
    }
  }

  lemma ActBalance(s: Server, env: C.Env, t: Track, busy: nat)
    requires DirectoriesSound(s) && Enabled(s, Act(env)) && BalancedAt(t, busy)
    ensures BalancedAt(AfterAll(t, Outcome(s, env).notes), busy + if Outcome(s, env).spawn.Some? then 1 else 0)
    ensures AfterAll(t, Outcome(s, env).notes).even == t.even
  {
    var c := s.clients[s.loop.cursor];
    assert GoodClient(s.root, c);
    C.InterpretShape(s.root, c, s.loop.snapshot, s.loop.line, env);
    var r := Outcome(s, env);
    hide C.Interpret, C.Shape, C.ConnectedShape, C.PasswordShape, BalancedAt, GoodDir, C.Contained, Outcome;
    match s.loop.snapshot {
      case Available => ShapeBalance(t, busy, c, r);
      case Connected => LoginBalance(t, busy, c, r);
      case Password => LoginBalance(t, busy, c, r);
      case _ =>
    }
  }

  lemma WorkBalance(w: Worker, m: Move, t: Track, busy: nat)
    requires CanMove(w, m) && BalancedAt(t, busy) && busy >= One(w, w.fd)
    ensures BalancedAt(AfterAll(t, MoveNotes(m)), busy - One(w, w.fd) + One(Moved(w, m), w.fd))
    ensures AfterAll(t, MoveNotes(m)).even == t.even
  {
    match m {
      case Break => AfterOne(t, C.Lost);
      case Finish => AfterOne(t, C.Say(C.Complete));
      case _ =>
    }
  }

  lemma {:induction false} BusyAtLeast(ws: seq<Worker>, i: nat)
    requires i < |ws|
    ensures BusyOf(ws, ws[i].fd) >= One(ws[i], ws[i].fd)
    decreases |ws|
  {
    if i < |ws| - 1 {
      BusyAtLeast(ws[..|ws| - 1], i);
    }
  }

  lemma BusyElsewhere(s: Server, a: Action, fd: nat)
    requires Enabled(s, a) && (Concerns(a) ==> Subject(s, a) != fd)
    ensures BusyOf(WorkersAfter(s, a), fd) == BusyOf(s.workers, fd)
  {
    match a {
      case Act(env) =>
        hide C.Interpret, Outcome;
        if Outcome(s, env).spawn.Some? {
          BusySnoc(s.workers, NewWorker(s.loop.cursor, Outcome(s, env).spawn.value, env.source), fd);
        }
      case Work(i, move) => BusyUpdate(s.workers, i, Moved(s.workers[i], move), fd);
      case _ =>
    }
  }

  /** A new connection starts even when nobody is busy. */
  lemma EndsBalance(t: Track, busy: nat)
    requires BalancedAt(t, busy)
    ensures var t' := AfterAll(t, [C.Say(C.Welcome)]);
            BalancedAt(t', busy) && (t'.even <==> t.even && busy == 0)
    ensures var t' := AfterAll(t, [C.HungUp]);
            BalancedAt(t', busy) && t'.even == t.even
  {
    AfterOne(t, C.Say(C.Welcome));
    AfterOne(t, C.HungUp);
  }

  /** One step keeps the balance of the session it is about. */
  lemma BalanceHere(s: Server, a: Action)
    requires DirectoriesSound(s) && Enabled(s, a) && Concerns(a)
    requires BalancedAt(TrackOf(s.log, Subject(s, a)), BusyOf(s.workers, Subject(s, a)))
    ensures var t, busy := TrackOf(s.log, Subject(s, a)), BusyOf(s.workers, Subject(s, a));
            var t' := AfterAll(t, NotesOf(s, a));
            && BalancedAt(t', BusyOf(WorkersAfter(s, a), Subject(s, a)))
            && (t'.even <==> t.even && (a.Accept? ==> busy == 0))
            && (BusyOf(WorkersAfter(s, a), Subject(s, a)) > busy ==> a.Act?)
  {
    hide TrackOf, BusyOf, AfterAll, BalancedAt, C.Interpret, DirectoriesSound, CanMove;
    var fd := Subject(s, a);
    var t, busy := TrackOf(s.log, fd), BusyOf(s.workers, fd);
    match a {
      case Accept(_) => EndsBalance(t, busy);
      case HangUp => EndsBalance(t, busy);
      case Act(env) =>
        hide Outcome;
        ActBalance(s, env, t, busy);
        if Outcome(s, env).spawn.Some? {
          BusySnoc(s.workers, NewWorker(fd, Outcome(s, env).spawn.value, env.source), fd);
        }
      case Work(i, move) =>
        BusyAtLeast(s.workers, i);
        WorkBalance(s.workers[i], move, t, busy);
        BusyUpdate(s.workers, i, Moved(s.workers[i], move), fd);
        NoMoreBusy(s.workers[i], move);
    }
  }

  lemma NoMoreBusy(w: Worker, m: Move)
    requires CanMove(w, m)
    ensures One(Moved(w, m), w.fd) <= One(w, w.fd) && Moved(w, m).fd == w.fd
  {
  }

  /** One step keeps the balance of every session. */
  lemma BalanceNext(s: Server, a: Action, fd: nat)
    requires DirectoriesSound(s) && Enabled(s, a) && BalancedAt(TrackOf(s.log, fd), BusyOf(s.workers, fd))
    ensures var t, busy := TrackOf(s.log, fd), BusyOf(s.workers, fd);
            var t', busy' := TrackOf(Next(s, a).log, fd), BusyOf(Next(s, a).workers, fd);
            && BalancedAt(t', busy')
            && (t'.even <==> t.even && (a == Accept(fd) ==> busy == 0))
            && (busy' > busy ==> a.Act? && s.loop.cursor == fd)
  {
    hide BalancedAt, DirectoriesSound, C.Interpret, TrackOf, BusyOf, NotesOf, ClientsAfter, LoopAfter, TableAfter, AfterAll;
    if Concerns(a) {
      TrackStamp(s.log, Subject(s, a), NotesOf(s, a), fd);
    }
    if Concerns(a) && Subject(s, a) == fd {
      BalanceHere(s, a);
    } else {
      BusyElsewhere(s, a, fd);
    }
  }

  lemma BalancedNext(s: Server, a: Action)
    requires DirectoriesSound(s) && Balanced(s) && Enabled(s, a)
    ensures Balanced(Next(s, a))
  {
    hide BalancedAt, DirectoriesSound, Next, TrackOf, BusyOf;
    forall fd: nat
      ensures BalancedAt(TrackOf(Next(s, a).log, fd), BusyOf(Next(s, a).workers, fd))
    {
      BalanceNext(s, a, fd);
    }
  }

  lemma {:induction false} AlwaysBalanced(s: Server, acts: seq<Action>, t: Server)
    requires DirectoriesSound(s) && Balanced(s) && Leads(s, acts, t)
    ensures Balanced(t)
    decreases |acts|
  {
    if acts != [] {
      SoundNext(s, acts[0]);
      BalancedNext(s, acts[0]);
      AlwaysBalanced(Next(s, acts[0]), acts[1..], t);
    }
  }

  /**
   Over every run and for every descriptor: as many 150s as 226s, workers still to send
   theirs, and failures together; and in every prefix of the log the 226s do not exceed the 150s.
   */
  lemma ReplyConservation(s: Server, acts: seq<Action>, t: Server, fd: nat, k: nat)
    requires Init(s) && Leads(s, acts, t) && k <= |t.log|
    ensures Count(t.log, fd, C.Say(C.Opening))
         == Count(t.log, fd, C.Say(C.Complete)) + BusyOf(t.workers, fd) + Count(t.log, fd, C.Lost)
    ensures Count(t.log[..k], fd, C.Say(C.Complete)) <= Count(t.log[..k], fd, C.Say(C.Opening))
  {
    InitSound(s);
    assert Balanced(s);
    AlwaysBalanced(s, acts, t);
    assert BalancedAt(TrackOf(t.log, fd), BusyOf(t.workers, fd));
    TrackCounts(t.log, fd);
    AheadMeans(t.log, fd, k);
  }

  // ---------- Within one connection ----------

  /** The 150s of `fd` that are neither answered nor given up in the first `i` events. */
  function Pending(log: seq<Event>, fd: nat, i: nat): int
    requires i <= |log|
  {
    Count(log[..i], fd, C.Say(C.Opening)) - Count(log[..i], fd, C.Say(C.Complete)) - Count(log[..i], fd, C.Lost)
  }

  /** Conservation counted from event `i` on. */
  ghost predicate ConservedSince(s: Server, fd: nat, i: nat)
    requires i <= |s.log|
  {
    Count(s.log[i..], fd, C.Say(C.Opening))
    == Count(s.log[i..], fd, C.Say(C.Complete)) + BusyOf(s.workers, fd) + Count(s.log[i..], fd, C.Lost)
  }

  /** No prefix of what follows event `i` has more 226s than 150s. */
  ghost predicate AnsweredSince(log: seq<Event>, fd: nat, i: nat)
    requires i <= |log|
  {
    forall k | i <= k <= |log| :: Count(log[i..k], fd, C.Say(C.Complete)) <= Count(log[i..k], fd, C.Say(C.Opening))
  }

  lemma CountsSince(log: seq<Event>, fd: nat, i: nat, k: nat)
    requires i <= k <= |log|
    ensures forall note :: Count(log[..k], fd, note) == Count(log[..i], fd, note) + Count(log[i..k], fd, note)
  {
    forall note
      ensures Count(log[..k], fd, note) == Count(log[..i], fd, note) + Count(log[i..k], fd, note)
    {
      CountConcat(log[..i], log[i..k], fd, note);
      assert log[..i] + log[i..k] == log[..k];
    }
  }

  /** At every moment the pending 150s are those of the busy workers. */
  lemma PendingIsBusy(s: Server, acts: seq<Action>, t: Server, fd: nat)
    requires Init(s) && Leads(s, acts, t)
    ensures Pending(t.log, fd, |t.log|) == BusyOf(t.workers, fd)
  {
    ReplyConservation(s, acts, t, fd, |t.log|);
    assert t.log[..|t.log|] == t.log;
  }

  /**
   In every run, counting may start at an event exactly when no 150 is pending there; and
   then no prefix from there on has more 226s than 150s.
   */
  lemma ConservedSinceIff(s: Server, acts: seq<Action>, t: Server, fd: nat, i: nat)
    requires Init(s) && Leads(s, acts, t) && i <= |t.log|
    ensures ConservedSince(t, fd, i) <==> Pending(t.log, fd, i) == 0
    ensures Pending(t.log, fd, i) == 0 ==> AnsweredSince(t.log, fd, i)
  {
    ReplyConservation(s, acts, t, fd, |t.log|);
    CountsSince(t.log, fd, i, |t.log|);
    assert t.log[..|t.log|] == t.log && t.log[i..|t.log|] == t.log[i..];
    AlwaysAhead(s, acts, t, fd);
    if Pending(t.log, fd, i) == 0 {
      NeverBehind(t.log, fd, i);
    }
  }

  lemma AlwaysAhead(s: Server, acts: seq<Action>, t: Server, fd: nat)
    requires Init(s) && Leads(s, acts, t)
    ensures TrackOf(t.log, fd).ahead
  {
    InitSound(s);
    assert Balanced(s);
    AlwaysBalanced(s, acts, t);
    assert BalancedAt(TrackOf(t.log, fd), BusyOf(t.workers, fd));
  }

  lemma NeverBehind(log: seq<Event>, fd: nat, i: nat)
    requires i <= |log| && Pending(log, fd, i) == 0 && TrackOf(log, fd).ahead
    ensures AnsweredSince(log, fd, i)
  {
    hide Count, TrackOf;
    forall k | i <= k <= |log|
      ensures Count(log[i..k], fd, C.Say(C.Complete)) <= Count(log[i..k], fd, C.Say(C.Opening))
    {
      CountsSince(log, fd, i, k);
      AheadMeans(log, fd, k);
    }
  }

  /** The present connection of `fd`, if there is one, has all of its 226s from its own 150s. */
  ghost predicate ConnectionConserved(s: Server, fd: nat) {
    forall i: nat | WelcomedAt(s.log, fd, i) :: ConservedSince(s, fd, i) && AnsweredSince(s.log, fd, i)
  }

  /** Connections have begun even, and nobody is busy for a descriptor that is no member. */
  ghost predicate BeganEven(s: Server, fd: nat) {
    && TrackOf(s.log, fd).even && BalancedAt(TrackOf(s.log, fd), BusyOf(s.workers, fd))
    && (fd !in s.table.fds ==> BusyOf(s.workers, fd) == 0)
  }

  /** Nobody found busy, nobody counted as busy. */
  lemma {:induction false} NobodyBusy(ws: seq<Worker>, fd: nat)
    requires !HasBusy(ws, fd)
    ensures BusyOf(ws, fd) == 0
  {
    if ws != [] {
      var k := |ws| - 1;
      assert forall i | 0 <= i < k :: ws[..k][i] == ws[i];
      NobodyBusy(ws[..k], fd);
    }
  }

  lemma BeganEvenNext(s: Server, a: Action, fd: nat)
    requires Kept(s) && BeganEven(s, fd) && Enabled(s, a) && Keeps(Answered(fd), s, a)
    ensures BeganEven(Next(s, a), fd)
  {
    BalanceNext(s, a, fd);
    hide BalancedAt, TrackOf, BusyOf, C.Interpret, WorkersAfter, LogAfter, ClientsAfter, DirectoriesSound, HasBusy, Attentive;
    if a.HangUp? && s.loop.cursor == fd {
      NobodyBusy(s.workers, fd);
    }
  }

  lemma {:induction false} AlwaysBeganEven(s: Server, acts: seq<Action>, t: Server, fd: nat)
    requires Kept(s) && BeganEven(s, fd) && LeadsUnder(Answered(fd), s, acts, t)
    ensures BeganEven(t, fd)
    decreases |acts|
  {
    if acts != [] {
      KeptNext(s, acts[0]);
      BeganEvenNext(s, acts[0], fd);
      hide Kept, BeganEven, Next;
      AlwaysBeganEven(Next(s, acts[0]), acts[1..], t, fd);
    }
  }

  lemma EvenInit(s: Server, fd: nat)
    requires Init(s)
    ensures BeganEven(s, fd)
  {
  }

  lemma ReachedEven(s: Server, acts: seq<Action>, t: Server, fd: nat)
    requires Init(s) && LeadsUnder(Answered(fd), s, acts, t)
    ensures TrackOf(t.log, fd).even && Leads(s, acts, t)
  {
    hide Kept, Init, Leads, LeadsUnder, TrackOf, BusyOf, BalancedAt;
    KeptInit(s);
    EvenInit(s, fd);
    UnderLeads(Answered(fd), s, acts, t);
    AlwaysBeganEven(s, acts, t, fd);
  }

  /**
   Reply conservation on every single control connection of `fd`, over the runs in which none
   of them is closed while a worker of it has still to send its 226.
   */
  lemma ConnectionConservation(s: Server, acts: seq<Action>, t: Server, fd: nat)
    requires Init(s) && LeadsUnder(Answered(fd), s, acts, t)
    ensures ConnectionConserved(t, fd)
  {
    ReachedEven(s, acts, t, fd);
    hide Init, Leads, LeadsUnder, TrackOf, ConservedSince, AnsweredSince, SameConnection;
    forall i: nat | WelcomedAt(t.log, fd, i)
      ensures ConservedSince(t, fd, i) && AnsweredSince(t.log, fd, i)
    {
      EvenMeans(t.log, fd, i);
      ConservedSinceIff(s, acts, t, fd, i);
    }
  }
}
