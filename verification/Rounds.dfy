/**
 Invariants over all runs of the main loop's bookkeeping: max_fd is the maximum of the
 descriptor set, the listening descriptor stays a member, and a round visits members only,
 and all of those that were ready.
 */
module Rounds {
  import C = Clients
  import opened Descriptors
  import opened Server
  import opened Directories

  /** Everybody the round has visited was ready, and everybody it still has to visit is a member. */
  ghost predicate LoopSound(loop: Loop, listenFd: nat, fds: set<nat>) {
    match loop
    case Selecting => true
    case Scanning(ready, cursor, done) => Visited(ready, cursor, done, fds)
    case Deciding(ready, cursor, done, _, _) => Visited(ready, cursor, done, fds) && cursor in ready && cursor != listenFd
  }

  ghost predicate Visited(ready: set<nat>, cursor: nat, done: seq<nat>, fds: set<nat>) {
    && Ascending(done) && (forall f | f in done :: f < cursor && f in ready)
    && (forall f | f in ready && f >= cursor :: f in fds)
  }

  ghost predicate Shaped(s: Server) {
    && s.root != "" && |s.clients| == MAX_CLIENT
    && Tight(s.table, s.listenFd) && (forall f | f in s.table.fds :: f >= s.listenFd)
    && LoopSound(s.loop, s.listenFd, s.table.fds)
    && forall i | 0 <= i < |s.workers| :: s.workers[i].fd < MAX_CLIENT
  }

  lemma ShapedInit(s: Server)
    requires Init(s)
    ensures Shaped(s)
  {
  }

  /** A connection that is accepted in a round is not among the descriptors of that round. */
  lemma AcceptedIsNotReady(s: Server, conn: nat)
    requires Shaped(s) && Enabled(s, Accept(conn))
    ensures conn !in s.loop.ready
  {
  }

  lemma VisitedNext(ready: set<nat>, cursor: nat, done: seq<nat>, fds: set<nat>, fds': set<nat>)
    requires Visited(ready, cursor, done, fds) && cursor in ready
    requires forall f | f in fds && f != cursor :: f in fds'
    ensures Visited(ready, cursor + 1, done + [cursor], fds')
  {
    AscendingSnoc(done, cursor);
  }

  lemma LoopSoundNext(s: Server, a: Action)
    requires Shaped(s) && Enabled(s, a)
    ensures LoopSound(LoopAfter(s, a), s.listenFd, TableAfter(s, a).fds)
  {
    match a {
      case Accept(_) => VisitedNext(s.loop.ready, s.loop.cursor, s.loop.done, s.table.fds, TableAfter(s, a).fds);
      case HangUp => VisitedNext(s.loop.ready, s.loop.cursor, s.loop.done, s.table.fds, TableAfter(s, a).fds);
      case Act(_) => VisitedNext(s.loop.ready, s.loop.cursor, s.loop.done, s.table.fds, s.table.fds);
      case _ =>
    }
  }

  /** After every accept and disconnect, as after every other step, the table is tight again. */
  lemma TightNext(s: Server, a: Action)
    requires Shaped(s) && Enabled(s, a)
    ensures Tight(TableAfter(s, a), s.listenFd)
  {
    if a.HangUp? {
      RemoveTight(s.table, s.listenFd, s.loop.cursor);
    } else if a.Accept? {
      AddTight(s.table, s.listenFd, a.conn);
    }
  }

  lemma ShapedNext(s: Server, a: Action)
    requires Shaped(s) && Enabled(s, a)
    ensures Shaped(Next(s, a))
  {
    TightNext(s, a);
    LoopSoundNext(s, a);
    hide LoopSound, Tight, LoopAfter, TableAfter, C.Interpret;
    WorkerFdsNext(s, a);
  }

  lemma WorkerFdsNext(s: Server, a: Action)
    requires Enabled(s, a) && |s.clients| == MAX_CLIENT
    requires forall i | 0 <= i < |s.workers| :: s.workers[i].fd < MAX_CLIENT
    ensures forall i | 0 <= i < |WorkersAfter(s, a)| :: WorkersAfter(s, a)[i].fd < MAX_CLIENT
  {
    hide C.Interpret;
  }

  /** In every reachable state max_fd is exactly the maximum of the descriptors and the listener is a member. */
  lemma {:induction false} AlwaysShaped(s: Server, acts: seq<Action>, t: Server)
    requires Shaped(s) && Leads(s, acts, t)
    ensures Shaped(t)
    decreases |acts|
  {
    if acts != [] {
      ShapedNext(s, acts[0]);
      AlwaysShaped(Next(s, acts[0]), acts[1..], t);
    }
  }

  // ---------- Nobody is passed over ----------

  /** Nobody that was ready has been passed over, and a pending snapshot is one of a session in use. */
  ghost predicate LoopKept(loop: Loop) {
    match loop
    case Selecting => true
    case Scanning(ready, cursor, done) => forall f | f in ready && f < cursor :: f in done
    case Deciding(ready, cursor, done, _, snapshot) =>
      (forall f | f in ready && f < cursor :: f in done) && snapshot != C.Disconnected
  }

  /** The members other than the listening descriptor are in use, so the loop does not skip them. */
  ghost predicate Attentive(s: Server) {
    && (forall f | f in s.table.fds && f != s.listenFd :: f < |s.clients| && s.clients[f].status != C.Disconnected)
    && LoopKept(s.loop)
  }

  /** No act on a session in use takes it out of use, whatever the snapshot. */
  lemma ActKeepsInUse(s: Server, env: C.Env)
    requires DirectoriesSound(s) && Enabled(s, Act(env))
    ensures s.clients[s.loop.cursor].status != C.Disconnected ==> Outcome(s, env).client.status != C.Disconnected
  {
    var c := s.clients[s.loop.cursor];
    assert GoodClient(s.root, c);
    C.InterpretShape(s.root, c, s.loop.snapshot, s.loop.line, env);
    hide C.Interpret, C.Contained, C.Plain;
  }

  lemma InUseNext(s: Server, a: Action)
    requires Shaped(s) && DirectoriesSound(s) && Attentive(s) && Enabled(s, a)
    ensures forall f | f in TableAfter(s, a).fds && f != s.listenFd ::
              f < |ClientsAfter(s, a)| && ClientsAfter(s, a)[f].status != C.Disconnected
  {
    hide C.Interpret, DirectoriesSound;
    if a.Act? {
      ActKeepsInUse(s, a.env);
    }
  }

  lemma AttentiveNext(s: Server, a: Action)
    requires Shaped(s) && DirectoriesSound(s) && Attentive(s) && Enabled(s, a)
    ensures Attentive(Next(s, a))
  {
    hide C.Interpret, DirectoriesSound, TableAfter, ClientsAfter, LoopKept, Shaped, LoopAfter, WorkersAfter, LogAfter;
    InUseNext(s, a);
    LoopKeptNext(s, a);
  }

  /** A step of the loop handles its descriptor, or skips it because it is not ready. */
  lemma LoopKeptNext(s: Server, a: Action)
    requires Shaped(s) && Attentive(s) && Enabled(s, a)
    ensures LoopKept(LoopAfter(s, a))
  {
    hide C.Interpret, Tight;
  }

  /** The bookkeeping of every reachable state. */
  ghost predicate Kept(s: Server) {
    Shaped(s) && DirectoriesSound(s) && Attentive(s)
  }

  lemma KeptNext(s: Server, a: Action)
    requires Kept(s) && Enabled(s, a)
    ensures Kept(Next(s, a))
  {
    ShapedNext(s, a);
    SoundNext(s, a);
    AttentiveNext(s, a);
  }

  lemma {:induction false} AlwaysKept(s: Server, acts: seq<Action>, t: Server)
    requires Kept(s) && Leads(s, acts, t)
    ensures Kept(t)
    decreases |acts|
  {
    if acts != [] {
      KeptNext(s, acts[0]);
      hide Kept, Next;
      AlwaysKept(Next(s, acts[0]), acts[1..], t);
    }
  }

  lemma KeptInit(s: Server)
    requires Init(s)
    ensures Kept(s)
  {
    ShapedInit(s);
    InitSound(s);
  }

  /**
   When a round ends, in any run, every ready descriptor has been handled exactly once, in
   ascending order.
   */
  lemma RoundHandlesAll(s: Server, acts: seq<Action>, t: Server)
    requires Init(s) && Leads(s, acts, t) && Enabled(t, EndRound)
    ensures Ascending(t.loop.done) && forall f :: f in t.loop.done <==> f in t.loop.ready
  {
    KeptInit(s);
    AlwaysKept(s, acts, t);
  }

  /** A status snapshot DISCONNECTED is never taken, in any run. */
  lemma NeverDisconnected(s: Server, acts: seq<Action>, t: Server)
    requires Init(s) && Leads(s, acts, t) && t.loop.Deciding?
    ensures t.loop.snapshot != C.Disconnected
  {
    KeptInit(s);
    AlwaysKept(s, acts, t);
  }

  /** A member other than the listening descriptor has a record in use, in any run. */
  lemma MembersInUse(s: Server, acts: seq<Action>, t: Server, fd: nat)
    requires Init(s) && Leads(s, acts, t) && fd in t.table.fds && fd != t.listenFd
    ensures fd < |t.clients| && t.clients[fd].status != C.Disconnected
  {
    KeptInit(s);
    AlwaysKept(s, acts, t);
  }
}
