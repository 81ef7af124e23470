/**
 The data path: send_msg (ftputils.c:3-18) and the copy loops of send_file and recv_file
 (ftputils.c:137-216), against a network that chooses every short write, every segment
 length, and whether a call fails.
 */
module DataPath {
  import C = Clients
  import opened Paths
  import opened Sessions
  import S = Server

  /** AUTO: take the length up to the terminator (ftputils.h:18). */
  const AUTO: int := -1

  type Byte = n: int | 0 <= n < 256

  /** The sending side of a connection: what has been written so far, and whether a write has failed. */
  class Channel {
    var sent: seq<Byte>
    var failed: bool

    constructor ()
      ensures sent == [] && !failed
    {
      sent, failed := [], false;
    }

    /** write(2): fails, or takes some non-empty part of what it is given. */
    method Write(data: seq<Byte>) returns (n: int)
      requires data != []
      modifies this
      ensures n <= |data| && n != 0
      ensures sent == old(sent) + if n < 0 then [] else data[..n]
      ensures failed == (old(failed) || n < 0)
    {
      n :| -1 <= n <= |data| && n != 0;
      if n > 0 {
        sent := sent + data[..n];
      } else {
        failed := true;
      }
    }
  }

  /** The receiving side: the bytes that will arrive, of which `taken` have been read, and whether a read has failed. */
  class Stream {
    const bytes: seq<Byte>
    var taken: nat
    var failed: bool

    ghost predicate Valid()
      reads this
    {
      taken <= |bytes|
    }

    constructor (bytes: seq<Byte>)
      ensures Valid() && this.bytes == bytes && taken == 0 && !failed
    {
      this.bytes := bytes;
      taken, failed := 0, false;
    }

    /** read(2): fails, or returns a segment of any length up to `max`, empty only at the end. */
    method Read(max: nat) returns (len: int, data: seq<Byte>)
      requires Valid() && max > 0
      modifies this
      ensures Valid() && len <= max
      ensures len < 0 ==> taken == old(taken)
      ensures len >= 0 ==> taken == old(taken) + len && data == bytes[old(taken)..taken]
      ensures len == 0 <==> len >= 0 && old(taken) == |bytes|
      ensures failed == (old(failed) || len < 0)
    {
      var left := |bytes| - taken;
      if left == 0 {
        len :| -1 <= len <= 0;
      } else {
        len :| -1 <= len <= left && len <= max && len != 0;
      }
      data := [];
      if len > 0 {
        data := bytes[taken..taken + len];
        taken := taken + len;
      } else if len < 0 {
        failed := true;
      }
    }
  }

  /** A stdio stream on a regular file. */
  class File {
    var contents: seq<Byte>
    var pos: nat
    var eof: bool

    ghost predicate Valid()
      reads this
    {
      pos <= |contents|
    }

    /** As after rewind, or as a file truncated for writing. */
    constructor (contents: seq<Byte>)
      ensures Valid() && this.contents == contents && pos == 0 && !eof
    {
      this.contents, pos, eof := contents, 0, false;
    }

    /** fread: everything up to `max`; the end-of-file flag is set by coming up short, not by reaching the end. */
    method Read(max: nat) returns (data: seq<Byte>)
      requires Valid()
      modifies this
      ensures Valid() && contents == old(contents)
      ensures old(pos) <= pos && data == contents[old(pos)..pos]
      ensures if |contents| - old(pos) >= max then pos == old(pos) + max && eof == old(eof)
              else pos == |contents| && eof
    {
      if |contents| - pos >= max {
        data := contents[pos..pos + max];
        pos := pos + max;
      } else {
        data := contents[pos..];
        pos, eof := |contents|, true;
      }
    }

    /** fwrite, which writes everything. */
    method Append(data: seq<Byte>)
      modifies this
      ensures contents == old(contents) + data && eof == old(eof)
    {
      contents := contents + data;
      pos := |contents|;
    }
  }

  /** strlen of a byte message. */
  function TextLength(msg: seq<Byte>): (n: nat)
    ensures n <= |msg| && (forall i | 0 <= i < n :: msg[i] != 0) && (n < |msg| ==> msg[n] == 0)
  {
    if msg == [] || msg[0] == 0 then 0 else 1 + TextLength(msg[1..])
  }

  function Wanted(msg: seq<Byte>, len: int): seq<Byte>
    requires len == AUTO || 0 <= len <= |msg|
  {
    if len == AUTO then msg[..TextLength(msg)] else msg[..len]
  }

  /** send_msg: 0 after writing everything, -1 after a failing write, with a proper prefix written. */
  method SendMsg(msg: seq<Byte>, dest: Channel, len: int) returns (r: int)
    requires len == AUTO || 0 <= len <= |msg|
    modifies dest
    ensures r == 0 || r == -1
    ensures dest.failed == (old(dest.failed) || r == -1)
    ensures r == 0 ==> dest.sent == old(dest.sent) + Wanted(msg, len)
    ensures r == -1 ==> exists k :: 0 <= k < |Wanted(msg, len)| && dest.sent == old(dest.sent) + Wanted(msg, len)[..k]
  {
    var total := if len == AUTO then TextLength(msg) else len;
    var p := 0;
    assert msg[..0] == [];
    while p < total
      invariant p <= total && dest.sent == old(dest.sent) + msg[..p] && dest.failed == old(dest.failed)
    {
      var n := dest.Write(msg[p..total]);
      if n < 0 {
        assert dest.sent == old(dest.sent) + Wanted(msg, len)[..p];
        return -1;
      }
      assert msg[..p + n] == msg[..p] + msg[p..total][..n];
      p := p + n;
    }
    r := 0;
  }

  /** "226 Transfer complete.\r\n" */
  const COMPLETE: seq<Byte> :=
    [50, 50, 54, 32, 84, 114, 97, 110, 115, 102, 101, 114, 32, 99, 111, 109, 112, 108, 101, 116, 101, 46, 13, 10]

  lemma NoZeros(msg: seq<Byte>)
    requires forall i | 0 <= i < |msg| :: msg[i] != 0
    ensures Wanted(msg, AUTO) == msg == msg[..|msg|]
  {
    hide TextLength;
    assert TextLength(msg) == |msg|;
  }

  lemma CompleteIsText()
    ensures Wanted(COMPLETE, AUTO) == COMPLETE == COMPLETE[..|COMPLETE|]
  {
    hide TextLength, Wanted;
    assert forall i | 0 <= i < |COMPLETE| :: COMPLETE[i] != 0;
    NoZeros(COMPLETE);
  }

  /** Control bytes after one 226: all of it unless a write failed, and then as much as could be written. */
  ghost predicate SaidComplete(before: seq<Byte>, after: seq<Byte>, failed: bool) {
    if failed then exists k :: 0 <= k <= |COMPLETE| && after == before + COMPLETE[..k]
    else after == before + COMPLETE
  }

  /** The end of a worker: the 226, whether or not it can be written, and the release of the session. */
  method Finish(slot: Session, control: Channel)
    modifies slot, control
    ensures SaidComplete(old(control.sent), control.sent, control.failed)
    ensures slot.View() == old(slot.View()).(status := C.Available, mode := C.NoMode, dataFd := 0)
  {
    hide TextLength, Wanted;
    var ignored := SendMsg(COMPLETE, control, AUTO);
    CompleteIsText();
    slot.Release();
    slot.CloseData();
  }

  /** One worker's moves so far, from its creation for the session record `c0` on. */
  ghost predicate Moving(w0: S.Worker, c0: C.Client, w: S.Worker, c: C.Client) {
    S.Becomes(w0, c0, w, c) && w.phase == S.Copying && w == w0.(phase := w.phase, pos := w.pos, chunk := w.chunk, eof := w.eof, sink := w.sink)
  }

  /** A read of the file, and as much of it on the channel as could be written: all of it, or a proper part before a failure. */
  lemma ReadAndWrite(w0: S.Worker, c0: C.Client, w: S.Worker, c: C.Client, k: nat, failed: bool) returns (v: S.Worker)
    requires Moving(w0, c0, w, c) && w.kind == C.Send && w.chunk == [] && !w.eof && w.pos <= |w.source|
    requires var n := S.Min(MAX_BUF, |w.source| - w.pos); if failed then k < n else k == n
    ensures var n := S.Min(MAX_BUF, |w.source| - w.pos);
            && v.sink == w.sink + w.source[w.pos..w.pos + k] && v.pos == w.pos + n && v.eof == (n < MAX_BUF)
            && S.Becomes(w0, c0, v, c)
            && (failed ==> v.phase == S.Failed) && (!failed ==> Moving(w0, c0, v, c) && v.chunk == [])
  {
    S.MovesOn(w0, c0, w, c, S.Fill);
    v := S.Moved(w, S.Fill);
    var chunk := v.chunk;
    hide S.Becomes;
    if k > 0 {
      S.MovesOn(w0, c0, v, c, S.Drain(k));
      v := S.Moved(v, S.Drain(k));
    }
    assert chunk[..k] == w.source[w.pos..w.pos + k];
    if failed {
      S.MovesOn(w0, c0, v, c, S.Break);
      v := S.Moved(v, S.Break);
    }
  }

  lemma PartOfPart(s: seq<Byte>, from: nat, to: nat, k: nat)
    requires from <= to <= |s| && k <= to - from
    ensures s[from..to][..k] == s[from..from + k]
  {
  }

  /** The loop of send_file: it ends after exactly size / 8192 + 1 reads, or when a write fails. */
  method CopyOut(file: File, data: Channel, ghost w0: S.Worker, ghost c0: C.Client, ghost start: S.Worker, ghost c: C.Client)
    returns (done: bool, ghost calls: nat, ghost w: S.Worker)
    requires file.Valid() && file.pos == 0 && !file.eof && data.sent == [] && !data.failed
    requires Moving(w0, c0, start, c) && start.kind == C.Send && start.source == file.contents
    requires start.pos == 0 && start.chunk == [] && !start.eof && start.sink == []
    modifies file, data
    ensures done <==> !data.failed
    ensures file.contents == old(file.contents) && data.sent <= file.contents
    ensures done ==> data.sent == file.contents && calls == |file.contents| / MAX_BUF + 1
    ensures S.Becomes(w0, c0, w, c) && w.sink == data.sent
    ensures if done then S.CanMove(w, S.Finish) else w.phase == S.Failed
  {
    hide S.Becomes;
    calls, w := 0, start;
    assert file.contents[..0] == [];
    while !file.eof
      invariant file.Valid() && file.contents == old(file.contents)
      invariant data.sent == file.contents[..file.pos] && !data.failed
      invariant !file.eof ==> file.pos == calls * MAX_BUF
      invariant file.eof ==> file.pos == |file.contents| && calls == |file.contents| / MAX_BUF + 1
      invariant Moving(w0, c0, w, c) && w.kind == C.Send && w.source == file.contents
      invariant w.sink == data.sent && w.pos == file.pos && w.eof == file.eof && w.chunk == []
      decreases !file.eof, |file.contents| - file.pos
    {
      ghost var from := file.pos;
      ghost var before := data.sent;
      var buffer := file.Read(MAX_BUF);
      calls := calls + 1;
      var r := SendMsg(buffer, data, |buffer|);
      assert Wanted(buffer, |buffer|) == buffer;
      assert file.contents[..file.pos] == file.contents[..from] + buffer;
      if r < 0 {
        ghost var k :| 0 <= k < |buffer| && data.sent == before + buffer[..k];
        PartOfPart(file.contents, from, file.pos, k);
        w := ReadAndWrite(w0, c0, w, c, k, true);
        return false, calls, w;
      }
      w := ReadAndWrite(w0, c0, w, c, |buffer|, false);
    }
    assert file.contents[..|file.contents|] == file.contents;
    done := true;
  }

  /** The end of a worker's moves. */
  lemma Ends(w0: S.Worker, c0: C.Client, w: S.Worker, c: C.Client) returns (v: S.Worker)
    requires S.Becomes(w0, c0, w, c) && S.CanMove(w, S.Finish)
    ensures v == w.(phase := S.Closed) && S.Becomes(w0, c0, v, C.DataClosed(C.Released(c)))
  {
    hide S.Becomes;
    S.MovesOn(w0, c0, w, c, S.Finish);
    v := S.Moved(w, S.Finish);
    S.MovesOn(w0, c0, v, c, S.Release);
    v := S.Moved(v, S.Release);
    S.MovesOn(w0, c0, v, C.Released(c), S.Close);
    v := S.Moved(v, S.Close);
  }

  /** And their start. */
  lemma Begins(w0: S.Worker, c0: C.Client) returns (w: S.Worker)
    requires w0 == S.NewWorker(w0.fd, w0.kind, w0.source)
    ensures w == w0.(phase := S.Copying) && Moving(w0, c0, w, C.Started(c0))
  {
    S.StaysItself(w0, c0);
    S.MovesOn(w0, c0, w0, c0, S.Begin);
    w := S.Moved(w0, S.Begin);
  }

  /**
   send_file. It finishes unless a write of data fails. When it finishes, the whole file is on
   the data channel, after exactly size / 8192 + 1 reads, and the session is available again
   without a data connection. When a write fails, a prefix of the file is there, nothing was
   said on the control channel, and the session stays in the transfer state. In both cases
   what it has done to the data and the session are moves of the state machine's worker.
   */
  method SendFile(slot: Session, file: File, data: Channel, control: Channel, ghost fd: nat)
    returns (done: bool, ghost calls: nat, ghost w: S.Worker)
    requires file.Valid() && file.pos == 0 && !file.eof && data != control && data.sent == [] && !data.failed
    modifies slot, file, data, control
    ensures done <==> !data.failed
    ensures file.contents == old(file.contents)
    ensures data.sent <= file.contents
    ensures done ==> data.sent == file.contents && calls == |file.contents| / MAX_BUF + 1
    ensures done ==> SaidComplete(old(control.sent), control.sent, control.failed)
    ensures done ==> slot.View() == old(slot.View()).(status := C.Available, mode := C.NoMode, dataFd := 0)
    ensures !done ==> control.sent == old(control.sent) && slot.View() == old(slot.View()).(status := C.Transfer)
    ensures S.Becomes(S.NewWorker(fd, C.Send, file.contents), old(slot.View()), w, slot.View())
    ensures w.phase == (if done then S.Closed else S.Failed) && w.sink == data.sent
  {
    hide S.Becomes, S.CanMove;
    ghost var w0, c0 := S.NewWorker(fd, C.Send, file.contents), slot.View();
    w := Begins(w0, c0);
    slot.StartTransfer();
    done, calls, w := CopyOut(file, data, w0, c0, w, slot.View());
    if done {
      w := Ends(w0, c0, w, slot.View());
      Finish(slot, control);
    }
  }

  /**
   recv_file. It finishes unless a read fails. When it finishes, the file holds everything that
   arrived, however it was segmented; when a read fails, a prefix of it, without a 226. Again
   what it has done are moves of the state machine's worker.
   */
  method RecvFile(slot: Session, file: File, data: Stream, control: Channel, ghost fd: nat)
    returns (done: bool, ghost w: S.Worker)
    requires file.Valid() && file.contents == [] && data.Valid() && data.taken == 0 && !data.failed
    modifies slot, file, data, control
    ensures done <==> !data.failed
    ensures file.contents <= data.bytes
    ensures done ==> file.contents == data.bytes
    ensures done ==> SaidComplete(old(control.sent), control.sent, control.failed)
    ensures done ==> slot.View() == old(slot.View()).(status := C.Available, mode := C.NoMode, dataFd := 0)
    ensures !done ==> control.sent == old(control.sent) && slot.View() == old(slot.View()).(status := C.Transfer)
    ensures S.Becomes(S.NewWorker(fd, C.Receive, data.bytes), old(slot.View()), w, slot.View())
    ensures w.phase == (if done then S.Closed else S.Failed) && w.sink == file.contents
  {
    hide S.Becomes, S.CanMove;
    ghost var w0, c0 := S.NewWorker(fd, C.Receive, data.bytes), slot.View();
    w := Begins(w0, c0);
    slot.StartTransfer();
    done, w := CopyIn(file, data, w0, c0, w, slot.View());
    if done {
      w := Ends(w0, c0, w, slot.View());
      Finish(slot, control);
    }
  }

  /** The loop of recv_file. */
  method CopyIn(file: File, data: Stream, ghost w0: S.Worker, ghost c0: C.Client, ghost start: S.Worker, ghost c: C.Client)
    returns (done: bool, ghost w: S.Worker)
    requires file.Valid() && file.contents == [] && data.Valid() && data.taken == 0 && !data.failed
    requires Moving(w0, c0, start, c) && start.kind == C.Receive && start.source == data.bytes
    requires start.pos == 0 && start.chunk == [] && start.sink == []
    modifies file, data
    ensures done <==> !data.failed
    ensures file.contents <= data.bytes
    ensures done ==> file.contents == data.bytes
    ensures S.Becomes(w0, c0, w, c) && w.sink == file.contents
    ensures if done then S.CanMove(w, S.Finish) else w.phase == S.Failed
  {
    hide S.Becomes;
    w := start;
    assert data.bytes[..0] == [];
    while true
      invariant data.Valid() && file.contents == data.bytes[..data.taken] && !data.failed
      invariant Moving(w0, c0, w, c) && w.kind == C.Receive && w.source == data.bytes
      invariant w.sink == file.contents && w.pos == data.taken && w.chunk == []
      decreases |data.bytes| - data.taken
    {
      ghost var from := data.taken;
      var len, buffer := data.Read(MAX_BUF);
      if len < 0 {
        S.MovesOn(w0, c0, w, c, S.Break);
        return false, S.Moved(w, S.Break);
      }
      if len == 0 {
        break;
      }
      S.MovesOn(w0, c0, w, c, S.Store(len));
      w := S.Moved(w, S.Store(len));
      file.Append(buffer);
      assert data.bytes[..data.taken] == data.bytes[..from] + buffer;
    }
    assert data.bytes[..|data.bytes|] == data.bytes;
    done := true;
  }

  /**
   A file sent by one server and stored by another: whatever the short writes and segments,
   what is stored is the file, and if either side gives up it is a prefix of it.
   */
  method RoundTrip(sender: Session, receiver: Session, contents: seq<Byte>)
    returns (stored: seq<Byte>, ghost writeFailed: bool, ghost readFailed: bool)
    requires sender != receiver
    modifies sender, receiver
    ensures stored <= contents
    ensures !writeFailed && !readFailed ==> stored == contents
  {
    var source := new File(contents);
    var wire := new Channel();
    var said := new Channel();
    var heard := new Channel();
    ghost var calls, w, v;
    var sentAll, storedAll;
    sentAll, calls, w := SendFile(sender, source, wire, said, 0);
    var stream := new Stream(wire.sent);
    var target := new File([]);
    storedAll, v := RecvFile(receiver, target, stream, heard, 0);
    stored, writeFailed, readFailed := target.contents, wire.failed, stream.failed;
  }
}
