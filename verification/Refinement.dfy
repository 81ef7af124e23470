/**
 One round of the in-place loop of Descriptors.dfy is a run of the state machine of Server.dfy
 in which no worker moves, and it ends in the same client table and descriptor set.
 */
module Refinement {
  import C = Clients
  import opened Commands
  import opened Paths
  import opened Descriptors
  import opened Server
  import opened Rounds

  /** The command lines of a round are such as the main loop receives. */
  ghost predicate Readable(b: Start)
    requires Delivers(b)
  {
    forall f | f in b.ready && b.inputs[f].Line? :: NotBlank(b.inputs[f].line) && |b.inputs[f].line| + 2 <= MAX_BUF
  }

  /** The main-loop steps that handle an input. */
  function Turn(input: Input): seq<Action> {
    match input
    case Connection(conn) => [Accept(conn)]
    case Line(line, env) => [Recv(line), Act(env)]
    case Gone => [HangUp]
  }

  predicate NoWork(acts: seq<Action>) {
    forall i | 0 <= i < |acts| :: !acts[i].Work?
  }

  /** The machine is where the loop is when it comes to descriptor `n`. */
  ghost predicate At(s: Server, b: Start, n: nat)
    requires Delivers(b)
  {
    && Shaped(s) && s.root == b.root && s.listenFd == b.listenFd
    && s.loop.Scanning? && s.loop.ready == b.ready && s.loop.cursor == n
    && Midway(b, n, s.clients, s.table.fds)
  }

  ghost predicate Sane(b: Start) {
    Delivers(b) && Readable(b) && Agrees(b.fds, b.listenFd, b.clients)
  }

  lemma SkipTurn(s: Server, b: Start, n: nat)
    requires Sane(b) && At(s, b, n) && n <= s.table.maxFd && n !in b.ready
    ensures Enabled(s, Skip) && At(Next(s, Skip), b, n + 1)
  {
    ShapedNext(s, Skip);
    MidwaySkip(b, n, s.clients, s.table.fds);
  }

  lemma ReadyTurn(s: Server, b: Start, n: nat) returns (t: Server)
    requires Sane(b) && At(s, b, n) && n <= s.table.maxFd && n in b.ready
    ensures Leads(s, Turn(b.inputs[n]), t) && At(t, b, n + 1)
  {
    MidwayReady(b, n, s.clients, s.table.fds);
    MidwayHandle(b, n, s.clients, s.table.fds);
    assert Fits(b, n, b.inputs[n]);
    hide Midway, Delivers, Agrees, C.Interpret, Handled;
    match b.inputs[n] {
      case Connection(conn) => t := OneStep(s, Accept(conn));
      case Gone => t := OneStep(s, HangUp);
      case Line(line, env) =>
        var s1 := OneStep(s, Recv(line));
        t := OneStep(s1, Act(env));
        assert [Recv(line), Act(env)][1..] == [Act(env)];
    }
  }

  lemma OneStep(s: Server, a: Action) returns (t: Server)
    requires Shaped(s) && Enabled(s, a)
    ensures t == Next(s, a) && Shaped(t) && Leads(s, [a], t)
  {
    t := Next(s, a);
    ShapedNext(s, a);
    assert [a][1..] == [];
  }

  /** The rest of a round, from descriptor `n` on. */
  lemma {:induction false} RestOfRound(s: Server, b: Start, n: nat) returns (acts: seq<Action>, t: Server)
    requires Sane(b) && At(s, b, n) && n <= MAX_CLIENT
    ensures Leads(s, acts, t) && NoWork(acts) && t.loop == Selecting && Shaped(t)
    ensures Midway(b, MAX_CLIENT, t.clients, t.table.fds)
    decreases MAX_CLIENT - n
  {
    hide Midway, Sane, Next, Enabled, C.Interpret, Delivers;
    if n > s.table.maxFd {
      t := EndTurn(s, b, n);
      acts := [EndRound];
    } else {
      var first, m := TakeTurn(s, b, n);
      var rest;
      rest, t := RestOfRound(m, b, n + 1);
      acts := first + rest;
      LeadsConcat(s, first, m, rest, t);
    }
  }

  lemma TakeTurn(s: Server, b: Start, n: nat) returns (acts: seq<Action>, t: Server)
    requires Sane(b) && At(s, b, n) && n <= s.table.maxFd
    ensures Leads(s, acts, t) && NoWork(acts) && At(t, b, n + 1) && n < MAX_CLIENT
  {
    hide Midway, Next, Enabled, C.Interpret;
    if n in b.ready {
      t := ReadyTurn(s, b, n);
      acts := Turn(b.inputs[n]);
    } else {
      SkipTurn(s, b, n);
      t := OneStep(s, Skip);
      acts := [Skip];
    }
  }

  lemma EndTurn(s: Server, b: Start, n: nat) returns (t: Server)
    requires Sane(b) && At(s, b, n) && n > s.table.maxFd
    ensures Leads(s, [EndRound], t) && t.loop == Selecting && Shaped(t)
    ensures Midway(b, MAX_CLIENT, t.clients, t.table.fds)
  {
    MidwayEnd(b, n, s.clients, s.table.fds, s.table.maxFd);
    t := OneStep(s, EndRound);
  }

  /**
   From select on, the main loop alone takes the state machine through the round, and the
   client table and descriptor set it reaches are the only ones that the in-place round can leave.
   */
  lemma RoundIsRun(s: Server, ready: set<nat>, inputs: map<nat, Input>) returns (acts: seq<Action>, t: Server)
    requires Shaped(s) && s.loop.Selecting? && ready != {}
    requires Sane(Start(s.root, s.listenFd, ready, inputs, s.clients, s.table.fds))
    ensures Leads(s, acts, t) && NoWork(acts) && t.loop == Selecting && Tight(t.table, t.listenFd)
    ensures var b := Start(s.root, s.listenFd, ready, inputs, s.clients, s.table.fds);
            forall clients, fds :: Midway(b, MAX_CLIENT, clients, fds) <==> clients == t.clients && fds == t.table.fds
  {
    var b := Start(s.root, s.listenFd, ready, inputs, s.clients, s.table.fds);
    MidwayStart(b);
    var s1 := OneStep(s, Select(ready));
    var rest;
    rest, t := RestOfRound(s1, b, 0);
    acts := [Select(ready)] + rest;
    LeadsConcat(s, [Select(ready)], s1, rest, t);
    hide ClientAt, FdsAt, Delivers;
    forall clients, fds
      ensures Midway(b, MAX_CLIENT, clients, fds) ==> clients == t.clients && fds == t.table.fds
    {
    }
  }
}
