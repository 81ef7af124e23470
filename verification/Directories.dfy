/**
 Invariants over all runs of the session directories: each is a normal form that fits its
 buffer, and every host path that CWD, LIST, RMD, RNFR and RNTO touch names the root
 followed by simple names only.
 */
module Directories {
  import C = Clients
  import opened Paths
  import opened HostPaths
  import opened Descriptors
  import opened Server

  /** A host path held for RNTO: none yet, or one within the root. */
  ghost predicate HeldWithin(root: string, path: string) {
    path == "" || Within(root, path)
  }

  ghost predicate GoodClient(root: string, c: C.Client) {
    GoodDir(c.dir) && HeldWithin(root, c.rndir)
  }

  ghost predicate NoteInside(root: string, n: C.Note) {
    match n
    case Touch(path) => Within(root, path)
    case Move(from, to) => HeldWithin(root, from) && Within(root, to)
    case _ => true
  }

  ghost predicate AllGood(root: string, clients: seq<C.Client>) {
    forall f | 0 <= f < |clients| :: GoodClient(root, clients[f])
  }

  ghost predicate AllInside(root: string, log: seq<Event>) {
    forall i | 0 <= i < |log| :: NoteInside(root, log[i].note)
  }

  ghost predicate DirectoriesSound(s: Server) {
    s.root != "" && AllGood(s.root, s.clients) && AllInside(s.root, s.log)
  }

  lemma EmptyIsGood(root: string)
    ensures GoodClient(root, C.EMPTY)
  {
    EmptyAndRootAreGood();
  }

  lemma InitSound(s: Server)
    requires Init(s)
    ensures DirectoriesSound(s)
  {
    EmptyIsGood(s.root);
  }

  /** What an act leaves and touches. */
  lemma GoodAct(root: string, c: C.Client, snapshot: C.Status, line: string, env: C.Env)
    requires root != "" && GoodClient(root, c)
    ensures var r := C.Interpret(root, c, snapshot, line, env);
            GoodClient(root, r.client) && forall i | 0 <= i < |r.notes| :: NoteInside(root, r.notes[i])
  {
    C.InterpretShape(root, c, snapshot, line, env);
    hide GoodDir, Within, C.Interpret, C.Shape, C.ConnectedShape, C.PasswordShape;
    var r := C.Interpret(root, c, snapshot, line, env);
    forall i | 0 <= i < |r.notes|
      ensures NoteInside(root, r.notes[i])
    {
      assert C.NoteWithin(root, c.rndir, r.notes[i]);
    }
  }

  lemma GoodMove(root: string, c: C.Client, move: Move)
    requires GoodClient(root, c)
    ensures GoodClient(root, MovedClient(c, move))
    ensures forall i | 0 <= i < |MoveNotes(move)| :: NoteInside(root, MoveNotes(move)[i])
  {
    hide GoodDir, HeldWithin;
  }

  lemma GoodGreeted(root: string, c: C.Client)
    requires GoodClient(root, c)
    ensures GoodClient(root, Greeted(c))
  {
    EmptyAndRootAreGood();
    hide GoodDir, HeldWithin;
  }

  lemma GoodAfter(s: Server, a: Action)
    requires DirectoriesSound(s) && Enabled(s, a) && Concerns(a)
    ensures GoodClient(s.root, ClientAfter(s, a))
    ensures forall i | 0 <= i < |NotesOf(s, a)| :: NoteInside(s.root, NotesOf(s, a)[i])
  {
    hide GoodClient, C.Interpret, Within, CanMove, MovedClient, MoveNotes, Greeted;
    var c := s.clients[Subject(s, a)];
    assert GoodClient(s.root, c);
    match a {
      case Accept(_) => GoodGreeted(s.root, c);
      case HangUp => EmptyIsGood(s.root);
      case Act(env) => GoodAct(s.root, c, s.loop.snapshot, s.loop.line, env);
      case Work(_, move) => GoodMove(s.root, c, move);
    }
  }

  lemma SoundNext(s: Server, a: Action)
    requires DirectoriesSound(s) && Enabled(s, a)
    ensures DirectoriesSound(Next(s, a))
  {
    if Concerns(a) {
      GoodAfter(s, a);
      hide GoodClient, NoteInside, ClientAfter, NotesOf, Subject, C.Interpret;
      SoundUpdate(s.root, s.clients, s.log, Subject(s, a), ClientAfter(s, a), NotesOf(s, a));
    } else {
      hide GoodClient, NoteInside;
    }
  }

  lemma SoundUpdate(root: string, clients: seq<C.Client>, log: seq<Event>, f: nat, c: C.Client, notes: seq<C.Note>)
    requires AllGood(root, clients) && AllInside(root, log) && f < |clients| && GoodClient(root, c)
    requires forall i | 0 <= i < |notes| :: NoteInside(root, notes[i])
    ensures AllGood(root, clients[f := c]) && AllInside(root, log + Stamp(f, notes))
  {
    hide GoodClient, NoteInside;
  }

  lemma {:induction false} AlwaysSound(s: Server, acts: seq<Action>, t: Server)
    requires DirectoriesSound(s) && Leads(s, acts, t)
    ensures DirectoriesSound(t) && t.root == s.root
    decreases |acts|
  {
    if acts != [] {
      SoundNext(s, acts[0]);
      AlwaysSound(Next(s, acts[0]), acts[1..], t);
    }
  }

  /**
   In every reachable state every session directory is normal and shorter than MAX_BUF, and
   every host path touched so far is within the root that the server was started with.
   */
  lemma NeverOutside(s: Server, acts: seq<Action>, t: Server)
    requires Init(s) && Leads(s, acts, t)
    ensures forall f | 0 <= f < |t.clients| :: GoodDir(t.clients[f].dir) && HeldWithin(s.root, t.clients[f].rndir)
    ensures forall i | 0 <= i < |t.log| :: NoteInside(s.root, t.log[i].note)
  {
    InitSound(s);
    AlwaysSound(s, acts, t);
    forall f | 0 <= f < |t.clients|
      ensures GoodDir(t.clients[f].dir) && HeldWithin(s.root, t.clients[f].rndir)
    {
      assert GoodClient(t.root, t.clients[f]);
    }
  }
}
