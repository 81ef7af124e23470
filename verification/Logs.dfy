/**
 Reading the log of a run: for one descriptor, how far the login has come, how many transfers
 and lists have begun, completed and failed, and whether a data connection has been announced
 since the last one that completed. The lemmas at the end say what these summaries mean in
 terms of the events themselves.
 */
module Logs {
  import C = Clients
  import opened Server

  /**
   `stage` counts accept, USER and PASS; `armed` says that a PORT or PASV has succeeded since
   the last completion; `ahead` that the 226s and failures have never outnumbered the 150s;
   `even` that they were as many whenever a connection was accepted; `renewed` that every
   completion so far was armed.
   */
  datatype Track = Track(
    stage: nat, began: nat, completed: nat, lost: nat, armed: bool, ahead: bool, even: bool, renewed: bool)

  const BLANK := Track(0, 0, 0, 0, false, true, true, true)

  predicate Covered(t: Track) {
    t.completed + t.lost <= t.began
  }

  function After(t: Track, n: C.Note): Track {
    match n
    case Lost => t.(lost := t.lost + 1, ahead := t.ahead && t.completed + t.lost + 1 <= t.began)
    case HungUp => t.(stage := 0, armed := false)
    case Say(Welcome) => t.(stage := 1, armed := false, even := t.even && t.began == t.completed + t.lost)
    case Say(UserOk) => t.(stage := if t.stage == 1 then 2 else t.stage)
    case Say(PassOk) => t.(stage := if t.stage == 2 then 3 else t.stage)
    case Say(PortOk) => t.(armed := true)
    case Say(Passive(_)) => t.(armed := true)
    case Say(Opening) => t.(began := t.began + 1)
    case Say(Complete) =>
      t.(completed := t.completed + 1, armed := false,
         ahead := t.ahead && t.completed + t.lost + 1 <= t.began, renewed := t.renewed && t.armed)
    case _ => t
  }

  function AfterAll(t: Track, notes: seq<C.Note>): Track {
    if notes == [] then t
    else After(AfterAll(t, notes[..|notes| - 1]), notes[|notes| - 1])
  }

  function TrackOf(log: seq<Event>, fd: nat): Track {
    if log == [] then BLANK
    else
      var t := TrackOf(log[..|log| - 1], fd);
      var e := log[|log| - 1];
      if e.fd == fd then After(t, e.note) else t
  }

  lemma {:induction false} TrackStamp(log: seq<Event>, f: nat, notes: seq<C.Note>, fd: nat)
    ensures TrackOf(log + Stamp(f, notes), fd)
         == if f == fd then AfterAll(TrackOf(log, fd), notes) else TrackOf(log, fd)
    decreases |notes|
  {
    hide After;
    if notes == [] {
      assert log + Stamp(f, notes) == log;
    } else {
      var k := |notes| - 1;
      TrackStamp(log, f, notes[..k], fd);
      var all := log + Stamp(f, notes);
      assert all[..|all| - 1] == log + Stamp(f, notes[..k]);
    }
  }

  lemma {:induction false} AfterPlain(t: Track, notes: seq<C.Note>)
    requires C.Plain(notes)
    ensures AfterAll(t, notes) == t
    decreases |notes|
  {
    if notes != [] {
      assert C.PlainNote(notes[|notes| - 1]);
      AfterPlain(t, notes[..|notes| - 1]);
    }
  }

  lemma {:induction false} AfterAppend(t: Track, a: seq<C.Note>, b: seq<C.Note>)
    ensures AfterAll(t, a + b) == AfterAll(AfterAll(t, a), b)
    decreases |b|
  {
    hide After;
    if b == [] {
      assert a + b == a;
    } else {
      AfterAppend(t, a, b[..|b| - 1]);
      assert (a + b)[..|a + b| - 1] == a + b[..|b| - 1];
    }
  }

  lemma AfterOne(t: Track, n: C.Note)
    ensures AfterAll(t, [n]) == After(t, n)
  {
    assert [n][..0] == [];
    assert AfterAll(t, [n][..0]) == t;
  }

  /** A transfer or list that failed has begun and is lost, and nothing else. */
  lemma AfterFailed(t: Track, notes: seq<C.Note>)
    requires C.FailedAfterOpening(notes)
    ensures AfterAll(t, notes) == t.(began := t.began + 1, lost := t.lost + 1, ahead := t.ahead && Covered(t))
  {
    var i :| 1 <= i < |notes| && notes[0] == C.Say(C.Opening) && notes[i] == C.Lost
             && C.Plain(notes[1..i]) && C.Plain(notes[i + 1..]);
    AfterFailedAt(t, notes, i);
  }

  lemma AfterFailedAt(t: Track, notes: seq<C.Note>, i: nat)
    requires 1 <= i < |notes| && notes[0] == C.Say(C.Opening) && notes[i] == C.Lost
    requires C.Plain(notes[1..i]) && C.Plain(notes[i + 1..])
    ensures AfterAll(t, notes) == t.(began := t.began + 1, lost := t.lost + 1, ahead := t.ahead && Covered(t))
  {
    hide C.Plain, C.PlainNote, AfterAll;
    var a, b := [notes[0]] + notes[1..i], [notes[i]] + notes[i + 1..];
    AfterThenPlain(t, notes[0], notes[1..i]);
    AfterThenPlain(t.(began := t.began + 1), notes[i], notes[i + 1..]);
    AfterAppend(t, a, b);
    Pieces(notes, i);
  }

  lemma Pieces<T>(notes: seq<T>, i: nat)
    requires 1 <= i < |notes|
    ensures notes == [notes[0]] + notes[1..i] + ([notes[i]] + notes[i + 1..])
  {
  }

  lemma AfterThenPlain(t: Track, n: C.Note, notes: seq<C.Note>)
    requires C.Plain(notes)
    ensures AfterAll(t, [n] + notes) == After(t, n)
  {
    AfterAppend(t, [n], notes);
    AfterOne(t, n);
    AfterPlain(After(t, n), notes);
  }

  /** A list has begun and completed. */
  lemma AfterListed(t: Track, notes: seq<C.Note>)
    requires C.Listed(notes)
    ensures AfterAll(t, notes) == After(After(t, C.Say(C.Opening)), C.Say(C.Complete))
  {
    assert notes == [notes[0]] + [notes[1]] + [notes[2]];
    AfterAppend(t, [notes[0]] + [notes[1]], [notes[2]]);
    AfterAppend(t, [notes[0]], [notes[1]]);
    AfterOne(t, notes[0]);
    AfterPlain(After(t, C.Say(C.Opening)), [notes[1]]);
    AfterOne(After(t, C.Say(C.Opening)), notes[2]);
  }

  // ---------- What the summaries mean ----------

  /** How often `note` occurs for `fd`. */
  function Count(log: seq<Event>, fd: nat, note: C.Note): nat {
    if log == [] then 0
    else Count(log[..|log| - 1], fd, note) + if log[|log| - 1] == Event(fd, note) then 1 else 0
  }

  lemma {:induction false} TrackCounts(log: seq<Event>, fd: nat)
    ensures var t := TrackOf(log, fd);
            && t.began == Count(log, fd, C.Say(C.Opening))
            && t.completed == Count(log, fd, C.Say(C.Complete))
            && t.lost == Count(log, fd, C.Lost)
  {
    if log != [] {
      hide After;
      TrackCounts(log[..|log| - 1], fd);
      AfterCounts(TrackOf(log[..|log| - 1], fd), log[|log| - 1].note);
    }
  }

  lemma AfterCounts(t: Track, n: C.Note)
    ensures var t' := After(t, n);
            && t'.began == t.began + (if n == C.Say(C.Opening) then 1 else 0)
            && t'.completed == t.completed + (if n == C.Say(C.Complete) then 1 else 0)
            && t'.lost == t.lost + if n == C.Lost then 1 else 0
  {
  }

  /** `ahead` speaks about every prefix. */
  lemma {:induction false} AheadMeans(log: seq<Event>, fd: nat, k: nat)
    requires TrackOf(log, fd).ahead && k <= |log|
    ensures Count(log[..k], fd, C.Say(C.Complete)) + Count(log[..k], fd, C.Lost) <= Count(log[..k], fd, C.Say(C.Opening))
    decreases |log|
  {
    if k == |log| {
      assert log[..k] == log;
      AheadNow(log, fd);
    } else {
      AheadMeans(log[..|log| - 1], fd, k);
      assert log[..|log| - 1][..k] == log[..k];
    }
  }

  lemma {:induction false} AheadNow(log: seq<Event>, fd: nat)
    requires TrackOf(log, fd).ahead
    ensures Count(log, fd, C.Say(C.Complete)) + Count(log, fd, C.Lost) <= Count(log, fd, C.Say(C.Opening))
  {
    TrackCounts(log, fd);
    AheadBound(log, fd);
  }

  lemma {:induction false} AheadBound(log: seq<Event>, fd: nat)
    ensures TrackOf(log, fd).ahead ==> Covered(TrackOf(log, fd))
  {
    if log != [] {
      AheadBound(log[..|log| - 1], fd);
    }
  }

  /** `even` speaks about every accept. */
  lemma {:induction false} EvenMeans(log: seq<Event>, fd: nat, i: nat)
    requires TrackOf(log, fd).even && i < |log| && log[i] == Event(fd, C.Say(C.Welcome))
    ensures Count(log[..i], fd, C.Say(C.Opening)) == Count(log[..i], fd, C.Say(C.Complete)) + Count(log[..i], fd, C.Lost)
    decreases |log|
  {
    var last := |log| - 1;
    if i == last {
      TrackCounts(log[..last], fd);
    } else {
      EvenMeans(log[..last], fd, i);
      assert log[..last][..i] == log[..i];
    }
  }

  lemma {:induction false} CountConcat(a: seq<Event>, b: seq<Event>, fd: nat, note: C.Note)
    ensures Count(a + b, fd, note) == Count(a, fd, note) + Count(b, fd, note)
    decreases |b|
  {
    if b == [] {
      assert a + b == a;
    } else {
      var k := |b| - 1;
      CountConcat(a, b[..k], fd, note);
      assert (a + b)[..|a + b| - 1] == a + b[..k];
    }
  }

  /** No end of connection and no new connection on `fd` after event `i`. */
  ghost predicate SameConnection(log: seq<Event>, fd: nat, i: int) {
    forall m | 0 <= m < |log| && i < m :: log[m] != Event(fd, C.HungUp) && log[m] != Event(fd, C.Say(C.Welcome))
  }

  /** The session has been accepted. */
  ghost predicate WelcomedAt(log: seq<Event>, fd: nat, i: int) {
    0 <= i < |log| && log[i] == Event(fd, C.Say(C.Welcome)) && SameConnection(log, fd, i)
  }

  /** Accepted at `i` and then an accepted USER at `j`. */
  ghost predicate UserAt(log: seq<Event>, fd: nat, i: int, j: int) {
    WelcomedAt(log, fd, i) && i < j < |log| && log[j] == Event(fd, C.Say(C.UserOk))
  }

  /** Since its own accept, the session has had an accepted USER and then an accepted PASS. */
  ghost predicate LoggedIn(log: seq<Event>, fd: nat) {
    exists i, j, k :: UserAt(log, fd, i, j) && j < k < |log| && log[k] == Event(fd, C.Say(C.PassOk))
  }

  ghost predicate Welcomed(log: seq<Event>, fd: nat) {
    exists i :: WelcomedAt(log, fd, i)
  }

  ghost predicate UserAccepted(log: seq<Event>, fd: nat) {
    exists i, j :: UserAt(log, fd, i, j)
  }

  ghost predicate StageMeans(log: seq<Event>, fd: nat, stage: nat) {
    && (stage == 1 ==> Welcomed(log, fd))
    && (stage == 2 ==> UserAccepted(log, fd))
    && (stage == 3 ==> LoggedIn(log, fd))
  }

  lemma {:induction false} TrackStage(log: seq<Event>, fd: nat)
    ensures StageMeans(log, fd, TrackOf(log, fd).stage)
  {
    if log != [] {
      hide Welcomed, UserAccepted, LoggedIn;
      var init, e := log[..|log| - 1], log[|log| - 1];
      TrackStage(init, fd);
      assert log == init + [e];
      if e == Event(fd, C.Say(C.Welcome)) {
        NowWelcomed(init, fd);
      } else if e != Event(fd, C.HungUp) {
        StageKept(init, e, fd);
      }
    }
  }

  lemma NowWelcomed(init: seq<Event>, fd: nat)
    ensures Welcomed(init + [Event(fd, C.Say(C.Welcome))], fd)
  {
    assert WelcomedAt(init + [Event(fd, C.Say(C.Welcome))], fd, |init|);
  }

  /** An event that neither ends the connection nor opens it adds to what was there. */
  lemma StageKept(init: seq<Event>, e: Event, fd: nat)
    requires e != Event(fd, C.HungUp) && e != Event(fd, C.Say(C.Welcome))
    ensures var log := init + [e];
            && (Welcomed(init, fd) ==> Welcomed(log, fd))
            && (UserAccepted(init, fd) ==> UserAccepted(log, fd))
            && (LoggedIn(init, fd) ==> LoggedIn(log, fd))
            && (Welcomed(init, fd) && e == Event(fd, C.Say(C.UserOk)) ==> UserAccepted(log, fd))
            && (UserAccepted(init, fd) && e == Event(fd, C.Say(C.PassOk)) ==> LoggedIn(log, fd))
  {
    if Welcomed(init, fd) {
      FromWelcome(init, e, fd);
    }
    if UserAccepted(init, fd) {
      FromUser(init, e, fd);
    }
    if LoggedIn(init, fd) {
      FromPass(init, e, fd);
    }
  }

  lemma FromWelcome(init: seq<Event>, e: Event, fd: nat)
    requires e != Event(fd, C.HungUp) && e != Event(fd, C.Say(C.Welcome)) && Welcomed(init, fd)
    ensures Welcomed(init + [e], fd)
    ensures e == Event(fd, C.Say(C.UserOk)) ==> UserAccepted(init + [e], fd)
  {
    var i :| WelcomedAt(init, fd, i);
    assert WelcomedAt(init + [e], fd, i);
    if e == Event(fd, C.Say(C.UserOk)) {
      assert UserAt(init + [e], fd, i, |init|);
    }
  }

  lemma FromUser(init: seq<Event>, e: Event, fd: nat)
    requires e != Event(fd, C.HungUp) && e != Event(fd, C.Say(C.Welcome)) && UserAccepted(init, fd)
    ensures UserAccepted(init + [e], fd)
    ensures e == Event(fd, C.Say(C.PassOk)) ==> LoggedIn(init + [e], fd)
  {
    var i, j :| UserAt(init, fd, i, j);
    assert WelcomedAt(init + [e], fd, i);
    assert UserAt(init + [e], fd, i, j);
    if e == Event(fd, C.Say(C.PassOk)) {
      assert (init + [e])[|init|] == e;
    }
  }

  lemma FromPass(init: seq<Event>, e: Event, fd: nat)
    requires e != Event(fd, C.HungUp) && e != Event(fd, C.Say(C.Welcome)) && LoggedIn(init, fd)
    ensures LoggedIn(init + [e], fd)
  {
    var i, j, k :| UserAt(init, fd, i, j) && j < k < |init| && init[k] == Event(fd, C.Say(C.PassOk));
    assert WelcomedAt(init + [e], fd, i);
    assert UserAt(init + [e], fd, i, j);
    assert (init + [e])[k] == init[k];
  }

  /** A successful PORT or PASV of the session. */
  predicate Announces(e: Event, fd: nat) {
    e.fd == fd && e.note.Say? && (e.note.msg.PortOk? || e.note.msg.Passive?)
  }

  lemma {:induction false} ArmedMeans(log: seq<Event>, fd: nat)
    requires TrackOf(log, fd).armed
    ensures exists k :: 0 <= k < |log| && Announces(log[k], fd)
                     && forall m | k < m < |log| :: log[m] != Event(fd, C.Say(C.Complete))
  {
    var last := |log| - 1;
    if Announces(log[last], fd) {
    } else {
      ArmedMeans(log[..last], fd);
      var init := log[..last];
      var k :| 0 <= k < |init| && Announces(init[k], fd)
               && forall m | k < m < |init| :: init[m] != Event(fd, C.Say(C.Complete));
      assert Announces(log[k], fd);
      assert forall m | k < m < last :: log[m] == init[m];
    }
  }

  /** `renewed` speaks about every completion: between it and any earlier one a data connection was announced. */
  lemma {:induction false} RenewedMeans(log: seq<Event>, fd: nat, i: int, j: nat)
    requires TrackOf(log, fd).renewed && i < j < |log| && log[j] == Event(fd, C.Say(C.Complete))
    requires i == -1 || (0 <= i && log[i] == Event(fd, C.Say(C.Complete)))
    ensures exists k :: i < k < j && Announces(log[k], fd)
    decreases |log|
  {
    var last := |log| - 1;
    var init := log[..last];
    if j < last {
      RenewedMeans(init, fd, i, j);
      var k :| i < k < j && Announces(init[k], fd);
      assert Announces(log[k], fd);
    } else {
      ArmedMeans(init, fd);
      var k :| 0 <= k < |init| && Announces(init[k], fd)
               && forall m | k < m < |init| :: init[m] != Event(fd, C.Say(C.Complete));
      assert Announces(log[k], fd);
      if 0 <= i {
        assert init[i] == log[i];
        assert k != i;
      }
    }
  }
}
