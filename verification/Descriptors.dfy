/**
 The descriptor set of the event loop, its maximum, and one round of the loop
 (operator.c:53-140).
 */
module Descriptors {
  import opened Wrappers
  import C = Clients
  import Paths

  const MAX_CLIENT: nat := 1024

  /** client_fds and max_fd. */
  datatype Table = Table(fds: set<nat>, maxFd: nat)

  /** max_fd is the maximum, and the listening descriptor, which is not 0, is a member. */
  ghost predicate Tight(t: Table, listenFd: nat) {
    && 0 < listenFd && listenFd in t.fds
    && t.maxFd in t.fds && (forall f | f in t.fds :: f <= t.maxFd < MAX_CLIENT)
  }

  /** After an accept (operator.c:84-87). */
  function Add(t: Table, fd: nat): Table {
    Table(t.fds + {fd}, if fd > t.maxFd then fd else t.maxFd)
  }

  /** The downward search: the first member at or below `i`, above 0. */
  function Rescan(fds: set<nat>, i: nat): Option<nat> {
    if i == 0 then None else if i in fds then Some(i) else Rescan(fds, i - 1)
  }

  /** After a disconnect (operator.c:111-124); max_fd stays when the search finds nothing. */
  function Remove(t: Table, fd: nat): Table {
    var fds := t.fds - {fd};
    if fd != t.maxFd then Table(fds, t.maxFd)
    else
      match Rescan(fds, t.maxFd)
      case None => Table(fds, t.maxFd)
      case Some(m) => Table(fds, m)
  }

  lemma AddTight(t: Table, listenFd: nat, fd: nat)
    requires Tight(t, listenFd) && fd < MAX_CLIENT
    ensures Tight(Add(t, fd), listenFd)
  {
  }

  lemma {:induction false} RescanFinds(fds: set<nat>, i: nat, f: nat)
    requires f in fds && 0 < f <= i
    ensures Rescan(fds, i).Some?
    ensures Rescan(fds, i).value in fds && f <= Rescan(fds, i).value <= i
    ensures forall g | g in fds && g <= i :: g <= Rescan(fds, i).value
  {
    if i !in fds {
      RescanFinds(fds, i - 1, f);
    }
  }

  /** The search after a disconnect finds a member, and the result is the maximum again. */
  lemma RemoveTight(t: Table, listenFd: nat, fd: nat)
    requires Tight(t, listenFd) && fd in t.fds && fd != listenFd
    ensures Tight(Remove(t, fd), listenFd)
    ensures fd == t.maxFd ==> Rescan(t.fds - {fd}, t.maxFd) == Some(Remove(t, fd).maxFd)
  {
    RescanFinds(t.fds - {fd}, t.maxFd, listenFd);
  }

  /** A record is in use exactly when its descriptor is a member and is not the listening one. */
  ghost predicate Agrees(fds: set<nat>, listenFd: nat, clients: seq<C.Client>) {
    forall f | 0 <= f < |clients| :: clients[f].status != C.Disconnected <==> f in fds && f != listenFd
  }

  ghost predicate Ascending(s: seq<nat>) {
    forall i, j | 0 <= i < j < |s| :: s[i] < s[j]
  }

  lemma AscendingSnoc(s: seq<nat>, n: nat)
    requires Ascending(s) && forall f | f in s :: f < n
    ensures Ascending(s + [n])
  {
    assert forall i | 0 <= i < |s| :: s[i] in s;
  }

  // ---------- The round, in place ----------

  /** What a ready descriptor delivers: a connection, a command line, or the end of its connection. */
  datatype Input = Connection(fd: nat) | Line(line: string, env: C.Env) | Gone

  /** All bytes of the record are zero. */
  predicate Cleared(c: C.Client) {
    && c.status == C.Disconnected && c.dataFd == 0 && c.bytes == C.Binary && c.mode == C.NoMode
    && c.target.h1 == c.target.h2 == c.target.h3 == c.target.h4 == c.target.port == 0
    && c.dir == "" && c.rndir == ""
  }

  function Greeted(c: C.Client): C.Client {
    c.(status := C.Connected, dir := "/")
  }

  /** The record that handling `input` on `fd` changes, and what it makes of it. */
  function Target(fd: nat, input: Input): nat {
    if input.Connection? then input.fd else fd
  }

  function Handled(root: string, c: C.Client, input: Input): C.Client
    requires root != "" && Paths.Rooted(c.dir)
  {
    match input
    case Connection(_) => Greeted(c)
    case Line(line, env) => C.Interpret(root, c, c.status, line, env).client
    case Gone => C.EMPTY
  }

  function FdsAfter(fds: set<nat>, fd: nat, input: Input): set<nat> {
    match input
    case Connection(conn) => fds + {conn}
    case Line(_, _) => fds
    case Gone => fds - {fd}
  }

  /** What a round starts from: who is ready, what they deliver, and the state of the tables. */
  datatype Start = Start(
    root: string, listenFd: nat, ready: set<nat>, inputs: map<nat, Input>, clients: seq<C.Client>, fds: set<nat>)

  /** The accept assumptions, and that the ready descriptors come from select. */
  ghost predicate Delivers(b: Start) {
    && b.root != "" && |b.clients| == MAX_CLIENT
    && b.ready <= b.fds && b.ready <= b.inputs.Keys
    && (forall f | 0 <= f < MAX_CLIENT :: Paths.GoodDir(b.clients[f].dir))
    && (forall f | f in b.fds :: f < MAX_CLIENT)
    && forall f | f in b.ready :: Fits(b, f, b.inputs[f])
  }

  ghost predicate Fits(b: Start, f: nat, input: Input) {
    if f == b.listenFd
    then input.Connection? && input.fd !in b.fds && b.listenFd < input.fd < MAX_CLIENT
    else !input.Connection?
  }

  /** The record `f` when the descriptors below `n` have been handled. */
  ghost function ClientAt(b: Start, n: nat, f: nat): C.Client
    requires Delivers(b) && f < MAX_CLIENT
  {
    if f in b.ready && f != b.listenFd && f < n then Handled(b.root, b.clients[f], b.inputs[f])
    else if b.listenFd in b.ready && b.listenFd < n && f == b.inputs[b.listenFd].fd then Greeted(b.clients[f])
    else b.clients[f]
  }

  /** The descriptor set when the descriptors below `n` have been handled. */
  ghost function FdsAt(b: Start, n: nat): set<nat>
    requires Delivers(b)
  {
    b.fds - (set f | f in b.ready && f < n && b.inputs[f].Gone?)
      + (if b.listenFd in b.ready && b.listenFd < n then {b.inputs[b.listenFd].fd} else {})
  }

  /** The tables part-way through a round. */
  ghost predicate Midway(b: Start, n: nat, clients: seq<C.Client>, fds: set<nat>)
    requires Delivers(b)
  {
    |clients| == MAX_CLIENT && (forall f | 0 <= f < MAX_CLIENT :: clients[f] == ClientAt(b, n, f)) && fds == FdsAt(b, n)
  }

  lemma MidwayStart(b: Start)
    requires Delivers(b)
    ensures Midway(b, 0, b.clients, b.fds)
  {
    assert FdsAt(b, 0) == b.fds;
  }

  lemma MidwaySkip(b: Start, n: nat, clients: seq<C.Client>, fds: set<nat>)
    requires Delivers(b) && Midway(b, n, clients, fds) && n !in b.ready
    ensures Midway(b, n + 1, clients, fds)
  {
    assert forall f | 0 <= f < MAX_CLIENT :: ClientAt(b, n + 1, f) == ClientAt(b, n, f);
    assert FdsAt(b, n + 1) == FdsAt(b, n);
  }

  /** A ready descriptor is still a member with its record untouched when its turn comes. */
  lemma MidwayReady(b: Start, n: nat, clients: seq<C.Client>, fds: set<nat>)
    requires Delivers(b) && Midway(b, n, clients, fds) && n in b.ready
    requires Agrees(b.fds, b.listenFd, b.clients)
    ensures n in fds && n < MAX_CLIENT && clients[n] == b.clients[n]
    ensures n != b.listenFd ==> clients[n].status != C.Disconnected
    ensures n == b.listenFd ==> b.inputs[n].fd !in fds && clients[b.inputs[n].fd] == b.clients[b.inputs[n].fd]
  {
    assert clients[n] == ClientAt(b, n, n);
    if n == b.listenFd {
      assert clients[b.inputs[n].fd] == ClientAt(b, n, b.inputs[n].fd);
    }
  }

  lemma MidwayHandle(b: Start, n: nat, clients: seq<C.Client>, fds: set<nat>)
    requires Delivers(b) && Midway(b, n, clients, fds) && n in b.ready
    ensures n < MAX_CLIENT && Target(n, b.inputs[n]) < MAX_CLIENT
    ensures var input := b.inputs[n];
            var target := Target(n, input);
            Midway(b, n + 1, clients[target := Handled(b.root, b.clients[target], input)], FdsAfter(fds, n, input))
  {
    var input := b.inputs[n];
    var target := Target(n, input);
    assert Fits(b, n, input);
    var clients' := clients[target := Handled(b.root, b.clients[target], input)];
    forall f | 0 <= f < MAX_CLIENT
      ensures clients'[f] == ClientAt(b, n + 1, f)
    {
      assert clients[f] == ClientAt(b, n, f);
    }
    FdsStep(b, n, fds);
  }

  lemma FdsStep(b: Start, n: nat, fds: set<nat>)
    requires Delivers(b) && fds == FdsAt(b, n) && n in b.ready
    ensures FdsAfter(fds, n, b.inputs[n]) == FdsAt(b, n + 1)
  {
    assert Fits(b, n, b.inputs[n]);
    if b.listenFd in b.ready {
      assert Fits(b, b.listenFd, b.inputs[b.listenFd]);
    }
  }

  class Operator {
    const root: string
    const listenFd: nat
    const clients: array<C.Client>
    var clientFds: set<nat>
    var maxFd: nat
    var clientCnt: nat

    /** The state that control_init has before its loop. */
    constructor (root: string, listenFd: nat)
      requires 0 < listenFd < MAX_CLIENT && root != ""
      ensures Valid() && fresh(clients)
      ensures forall f | 0 <= f < MAX_CLIENT :: Cleared(clients[f])
      ensures this.root == root && this.listenFd == listenFd && clientFds == {listenFd} && clientCnt == 0
    {
      this.root, this.listenFd := root, listenFd;
      clients := new C.Client[MAX_CLIENT](_ => C.EMPTY);
      clientFds, maxFd, clientCnt := {listenFd}, listenFd, 0;
      new;
      EmptyAndRootAreGood();
      hide Paths.GoodDir;
    }

    ghost predicate Valid()
      reads this, clients
    {
      && root != "" && clients.Length == MAX_CLIENT
      && Tight(Table(clientFds, maxFd), listenFd)
      && Agrees(clientFds, listenFd, clients[..])
      && forall f | 0 <= f < MAX_CLIENT :: Paths.GoodDir(clients[f].dir)
    }

    /** The rescan loop: the largest member at or below the old maximum, which is left alone if there is none. */
    method RefindMax()
      modifies this`maxFd
      ensures maxFd == match Rescan(clientFds, old(maxFd)) case None => old(maxFd) case Some(m) => m
    {
      var i := maxFd;
      while i > 0
        invariant maxFd == old(maxFd)
        invariant Rescan(clientFds, maxFd) == Rescan(clientFds, i)
      {
        if i in clientFds {
          maxFd := i;
          break;
        }
        i := i - 1;
      }
    }

    /** Handling one ready descriptor: the branches of the loop body after its first test. */
    method Handle(eventfd: nat, input: Input)
      requires clients.Length == MAX_CLIENT && root != "" && Tight(Table(clientFds, maxFd), listenFd)
      requires eventfd in clientFds && Paths.GoodDir(clients[eventfd].dir)
      requires if eventfd == listenFd
               then input.Connection? && input.fd !in clientFds && input.fd < MAX_CLIENT && Paths.GoodDir(clients[input.fd].dir)
               else !input.Connection?
      modifies this, clients
      ensures Tight(Table(clientFds, maxFd), listenFd)
      ensures Table(clientFds, maxFd) ==
                match input
                case Connection(conn) => Add(old(Table(clientFds, maxFd)), conn)
                case Line(_, _) => old(Table(clientFds, maxFd))
                case Gone => Remove(old(Table(clientFds, maxFd)), eventfd)
      ensures clients[..] == old(clients[..])[Target(eventfd, input) := Handled(root, old(clients[Target(eventfd, input)]), input)]
      ensures clientCnt == old(clientCnt) + if input.Connection? then 1 else 0
      ensures input.Connection? ==> clients[input.fd] == old(clients[input.fd]).(status := C.Connected, dir := "/")
      ensures input.Gone? ==> Cleared(clients[eventfd])
    {
      match input {
        case Connection(connfd) =>
          clients[connfd] := Greeted(clients[connfd]);
          clientFds := clientFds + {connfd};
          if connfd > maxFd {
            maxFd := connfd;
          }
          clientCnt := clientCnt + 1;
        case Line(line, env) =>
          clients[eventfd] := C.Interpret(root, clients[eventfd], clients[eventfd].status, line, env).client;
        case Gone =>
          RemoveTight(Table(clientFds, maxFd), listenFd, eventfd);
          clientFds := clientFds - {eventfd};
          clients[eventfd] := C.EMPTY;
          if eventfd == maxFd {
            RefindMax();
          }
      }
    }

    ghost function Now(ready: set<nat>, inputs: map<nat, Input>): Start
      reads this, clients
    {
      Start(root, listenFd, ready, inputs, clients[..], clientFds)
    }

    /**
     One round of the loop, whose bound maxFd grows on an accept and shrinks on a disconnect:
     every ready descriptor is handled exactly once, in ascending order, each record sees
     its own input and no other, and a connection that is accepted in the round is not served in it.
     */
    method Round(ready: set<nat>, inputs: map<nat, Input>) returns (handled: seq<nat>)
      requires Valid() && Delivers(Now(ready, inputs))
      modifies this, clients
      ensures Valid()
      ensures Ascending(handled) && (forall f :: f in handled <==> f in ready)
      ensures Midway(old(Now(ready, inputs)), MAX_CLIENT, clients[..], clientFds)
      ensures listenFd in ready ==> inputs[listenFd].fd !in handled && inputs[listenFd].fd in clientFds
      ensures clientCnt == old(clientCnt) + if listenFd in ready then 1 else 0
    {
      hide Paths.GoodDir, C.Interpret, ClientAt, FdsAt, Agrees;
      ghost var b := Now(ready, inputs);
      handled := [];
      var eventfd: nat := 0;
      MidwayStart(b);
      while eventfd < maxFd + 1
        invariant clients.Length == MAX_CLIENT && eventfd <= MAX_CLIENT
        invariant Tight(Table(clientFds, maxFd), listenFd)
        invariant Ascending(handled) && (forall f :: f in handled <==> f in ready && f < eventfd)
        invariant Midway(b, eventfd, clients[..], clientFds)
        invariant clientCnt == old(clientCnt) + if listenFd in ready && listenFd < eventfd then 1 else 0
        decreases MAX_CLIENT - eventfd
      {
        if eventfd !in ready {
          MidwaySkip(b, eventfd, clients[..], clientFds);
        } else {
          MidwayReady(b, eventfd, clients[..], clientFds);
          MidwayHandle(b, eventfd, clients[..], clientFds);
          assert Fits(b, eventfd, inputs[eventfd]);
          if eventfd == listenFd || clients[eventfd].status != C.Disconnected {
            Handle(eventfd, inputs[eventfd]);
            AscendingSnoc(handled, eventfd);
            handled := handled + [eventfd];
          }
        }
        eventfd := eventfd + 1;
      }
      MidwayEnd(b, eventfd, clients[..], clientFds, maxFd);
      MidwayAgrees(b, eventfd, clients[..], clientFds);
    }
  }

  lemma EmptyAndRootAreGood()
    ensures Paths.GoodDir("") && Paths.GoodDir("/")
  {
    assert Paths.Render([], false) == "" && Paths.Render([], true) == "/";
    assert Paths.AllSimple([]);
  }

  /** Handling keeps the records in agreement with the descriptor set. */
  lemma MidwayAgrees(b: Start, n: nat, clients: seq<C.Client>, fds: set<nat>)
    requires Delivers(b) && Midway(b, n, clients, fds)
    requires Agrees(b.fds, b.listenFd, b.clients)
    ensures Agrees(fds, b.listenFd, clients)
    ensures forall f | 0 <= f < MAX_CLIENT :: Paths.GoodDir(clients[f].dir)
  {
    EmptyAndRootAreGood();
    hide Paths.GoodDir, C.Interpret;
    forall f | 0 <= f < MAX_CLIENT
      ensures clients[f].status != C.Disconnected <==> f in fds && f != b.listenFd
      ensures Paths.GoodDir(clients[f].dir)
    {
      assert clients[f] == ClientAt(b, n, f);
      if f in b.ready {
        assert Fits(b, f, b.inputs[f]);
        if f != b.listenFd && b.inputs[f].Line? {
          var Line(line, env) := b.inputs[f];
          C.InterpretShape(b.root, b.clients[f], b.clients[f].status, line, env);
        }
      }
      if b.listenFd in b.ready {
        assert Fits(b, b.listenFd, b.inputs[b.listenFd]);
      }
    }
  }

  /** Past the bound nobody is ready, so the rest of the descriptors need no turn. */
  lemma MidwayEnd(b: Start, n: nat, clients: seq<C.Client>, fds: set<nat>, maxFd: nat)
    requires Delivers(b) && Midway(b, n, clients, fds)
    requires n > maxFd && forall f | f in fds :: f <= maxFd
    ensures forall f | f in b.ready :: f < n
    ensures Midway(b, MAX_CLIENT, clients, fds)
    ensures b.listenFd in b.ready ==> b.inputs[b.listenFd].fd in fds && b.inputs[b.listenFd].fd !in b.ready
  {
    assert forall f | f in b.ready && f >= n :: f in FdsAt(b, n);
    assert FdsAt(b, MAX_CLIENT) == FdsAt(b, n);
    assert forall f | 0 <= f < MAX_CLIENT :: ClientAt(b, MAX_CLIENT, f) == ClientAt(b, n, f);
    if b.listenFd in b.ready {
      assert Fits(b, b.listenFd, b.inputs[b.listenFd]);
    }
  }
}
