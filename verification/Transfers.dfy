/**
 Invariants over all runs of the data that workers move: what a RETR worker has put on the
 data channel is always a prefix of its file, what a STOR worker has stored is always a
 prefix of what arrives, and a 226 is sent only when it is all of it.
 */
module Transfers {
  import C = Clients
  import opened Paths
  import opened Server

  /** The bytes moved and the bytes in the buffer are what has been read of the source. */
  ghost predicate Faithful(w: Worker) {
    && w.pos <= |w.source|
    && w.sink + w.chunk == w.source[..w.pos]
    && (w.eof ==> w.pos == |w.source|)
    && (w.kind == C.Receive ==> w.chunk == [])
    && (w.phase == Spawned ==> w == NewWorker(w.fd, w.kind, w.source))
    && (w.phase == Sent226 || w.phase == Released || w.phase == Closed ==> w.chunk == [] && w.pos == |w.source|)
  }

  ghost predicate AllFaithful(s: Server) {
    forall i | 0 <= i < |s.workers| :: Faithful(s.workers[i])
  }

  lemma TakeMore(source: seq<int>, pos: nat, n: nat)
    requires pos + n <= |source|
    ensures source[..pos] + source[pos..pos + n] == source[..pos + n]
  {
  }

  lemma FaithfulMove(w: Worker, m: Move)
    requires Faithful(w) && CanMove(w, m)
    ensures Faithful(Moved(w, m))
  {
    match m {
      case Fill =>
        TakeMore(w.source, w.pos, Min(MAX_BUF, |w.source| - w.pos));
        assert w.sink + w.chunk == w.sink;
      case Drain(n) =>
        assert w.sink + w.chunk[..n] + w.chunk[n..] == w.sink + w.chunk;
      case Store(n) =>
        TakeMore(w.source, w.pos, n);
        assert w.sink + w.chunk == w.sink;
        assert Moved(w, m).sink + w.chunk == Moved(w, m).sink;
      case _ =>
    }
  }

  lemma FaithfulNext(s: Server, a: Action)
    requires AllFaithful(s) && Enabled(s, a)
    ensures AllFaithful(Next(s, a))
  {
    hide C.Interpret, ClientsAfter, LogAfter, LoopAfter, TableAfter;
    if a.Work? {
      FaithfulMove(s.workers[a.i], a.move);
    }
  }

  lemma {:induction false} AlwaysFaithful(s: Server, acts: seq<Action>, t: Server)
    requires AllFaithful(s) && Leads(s, acts, t)
    ensures AllFaithful(t)
    decreases |acts|
  {
    if acts != [] {
      FaithfulNext(s, acts[0]);
      AlwaysFaithful(Next(s, acts[0]), acts[1..], t);
    }
  }

  /**
   At every moment of every run, whatever the other workers and the main loop do: what a
   worker has moved is a prefix of its source, and it can only send its 226, and has only
   sent it, when that is the whole source.
   */
  lemma PrefixAlways(s: Server, acts: seq<Action>, t: Server, i: nat)
    requires Init(s) && Leads(s, acts, t) && i < |t.workers|
    ensures var w := t.workers[i];
            && w.sink <= w.source
            && (w.phase == Sent226 || w.phase == Released || w.phase == Closed ==> w.sink == w.source)
            && (Enabled(t, Work(i, Finish)) ==> w.sink == w.source)
  {
    AlwaysFaithful(s, acts, t);
    var w := t.workers[i];
    assert Faithful(w);
    assert w.sink == (w.sink + w.chunk)[..|w.sink|] == w.source[..w.pos][..|w.sink|];
    assert w.chunk == [] ==> w.sink + w.chunk == w.sink;
    assert w.source[..|w.source|] == w.source;
  }

  /** A worker that has sent its 226. */
  predicate Finished(w: Worker) {
    w.phase == Sent226 || w.phase == Released || w.phase == Closed
  }

  /**
   From one server to another, each in a run of its own: when a STOR worker has received just
   what a RETR worker put on its data channel and both have finished, the stored file is the
   file that was read; before that it is a prefix of it.
   */
  lemma StoredIsRead(s1: Server, acts1: seq<Action>, t1: Server, i: nat, s2: Server, acts2: seq<Action>, t2: Server, j: nat)
    requires Init(s1) && Leads(s1, acts1, t1) && i < |t1.workers|
    requires Init(s2) && Leads(s2, acts2, t2) && j < |t2.workers|
    requires t2.workers[j].source <= t1.workers[i].sink
    ensures t2.workers[j].sink <= t1.workers[i].source
    ensures Finished(t1.workers[i]) && Finished(t2.workers[j]) && t2.workers[j].source == t1.workers[i].sink ==>
              t2.workers[j].sink == t1.workers[i].source
  {
    PrefixAlways(s1, acts1, t1, i);
    PrefixAlways(s2, acts2, t2, j);
  }
}
