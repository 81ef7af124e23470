/**
 The client record updated in place, as the handlers of control.c and the dispatch of
 interpreter.c do it. Every method is proved against the function of Clients.dfy that the
 whole-run results are about.
 */
module Sessions {
  import opened Wrappers
  import opened CStrings
  import opened Paths
  import opened HostPaths
  import opened HostPort
  import opened Commands
  import C = Clients
  import opened Normaliser

  class Session {
    var status: C.Status
    var dataFd: int
    var bytes: C.Bytes
    var mode: C.Mode
    var target: Endpoint
    var dir: string
    var rndir: string

    /** The record as a value. */
    function View(): C.Client
      reads this
    {
      C.Client(status, dataFd, bytes, mode, target, dir, rndir)
    }

    /** The state of a record after memset: not connected. */
    constructor ()
      ensures View() == C.EMPTY
    {
      status, dataFd, bytes, mode, target := C.Disconnected, 0, C.Binary, C.NoMode, NOWHERE;
      dir, rndir := "", "";
    }

    method User(line: string) returns (r: int)
      modifies this
      ensures -2 <= r <= 0
      ensures C.Only(r, View()) == C.User(old(View()), line)
    {
      if |line| < 6 {
        return -1;
      }
      if line[5..] != "anonymous" {
        return -2;
      }
      status := C.Password;
      r := 0;
    }

    /** The scan for an '@' that is not the first character. */
    method Pass(line: string) returns (r: int)
      modifies this
      ensures -2 <= r <= 0
      ensures C.Only(r, View()) == C.Pass(old(View()), line)
    {
      if |line| < 6 {
        return -1;
      }
      var str := line[5..];
      var len := |str|;
      var i := 0;
      while i < len
        invariant i < len
        invariant forall j | 1 <= j < i :: str[j] != '@'
        decreases len - i
      {
        if str[i] == '@' && i != 0 {
          break;
        }
        if i == len - 1 {
          return -2;
        }
        i := i + 1;
      }
      status := C.Available;
      r := 0;
    }

    method Type(line: string) returns (r: int)
      requires |line| == 6
      modifies this
      ensures C.Only(r, View()) == C.Type(old(View()), line)
    {
      if line[5] == 'A' {
        bytes := C.Ascii;
        return 1;
      } else if line[5] == 'I' {
        bytes := C.Binary;
        return 0;
      }
      r := -1;
    }

    method Port(line: string) returns (r: int)
      modifies this
      ensures -1 <= r <= 0
      ensures C.Only(r, View()) == C.Port(old(View()), line)
    {
      var six := ScanSix(line);
      if six.None? || !RangeCheck(six.value) {
        return -1;
      }
      target := Address(six.value);
      mode := C.PortMode;
      r := 0;
    }

    /** The reply text is printed from the bound address, its dots replaced in place. */
    method Pasv(line: string, env: C.Env) returns (r: int, text: string)
      requires WellFormed(env.here)
      modifies this
      ensures -2 <= r <= 0
      ensures C.Only(r, View()) == C.Pasv(old(View()), line, env)
      ensures r == 0 ==> text == Printed(env.here)
    {
      text := "";
      if |line| > 4 {
        return -1, text;
      }
      if !env.socketOk || !env.bindOk {
        return -2, text;
      }
      dataFd := env.newFd;
      if !env.listenOk || !env.nameOk {
        return -2, text;
      }
      var dotted := Dotted(env.here);
      var ipAddress := new char[|dotted| + 1];
      DottedIsCStr(env.here);
      StrCpy(ipAddress, dotted);
      ReplaceDots(ipAddress, dotted);
      mode := C.PasvMode;
      var n := StrLen(ipAddress, Commas(dotted));
      HeldPrefix(ipAddress[..], Commas(dotted));
      text := ipAddress[..n] + "," + Decimal.Dec(env.here.port / 256) + "," + Decimal.Dec(env.here.port % 256);
      r := 0;
    }

    /** The part that RETR, STOR and LIST share. */
    method OpenData(env: C.Env) returns (r: int)
      modifies this
      ensures C.Only(r, View()) == C.OpenData(old(View()), env)
    {
      if mode == C.PortMode {
        if !env.socketOk {
          return -1;
        }
        if !env.bindOk {
          return -2;
        }
        if !env.connectOk {
          return -3;
        }
        dataFd := env.newFd;
      } else if mode == C.PasvMode {
        if !env.acceptOk {
          return -4;
        }
        dataFd := env.newFd;
      } else {
        return -5;
      }
      r := 0;
    }

    method Transfer(line: string, env: C.Env, kind: C.Kind)
      returns (r: int, notes: seq<C.Note>, spawn: Option<C.Kind>)
      modifies this
      ensures C.Result(r, View(), notes, spawn) == C.BeginTransfer(old(View()), line, env, kind)
    {
      notes, spawn := [], None;
      if |line| < 6 {
        return -1, notes, spawn;
      }
      r := OpenData(env);
      if r != 0 {
        return;
      }
      if !env.openOk {
        return -2, notes, spawn;
      }
      notes := [C.Say(C.Opening)];
      if !env.threadOk {
        return -3, notes + [C.Lost], spawn;
      }
      spawn := Some(kind);
    }

    method List(root: string, env: C.Env) returns (r: int, notes: seq<C.Note>)
      requires root != ""
      modifies this
      ensures C.Result(r, View(), notes, None) == C.List(root, old(View()), env)
    {
      notes := [C.Say(C.Opening), C.Touch(HostPath(root, dir))];
      if !env.dirOk || !env.dirAgainOk {
        return -1, notes + [C.Lost];
      }
      r := OpenData(env);
      if r != 0 {
        notes := notes + [C.Lost];
        return;
      }
      dataFd := 0;
      mode := C.NoMode;
      notes := notes + [C.Say(C.Complete)];
    }

    /** connect_dir and real_dir on local buffers, as CWD, RMD, RNFR and RNTO call them. */
    method Locate(root: string, name: string) returns (opt: int, newdir: string, realdir: string)
      requires CStr(root) && root != "" && CStr(dir) && Rooted(dir) && CStr(name)
      requires HostFits(root, dir, name)
      ensures opt == 0 || opt == -1
      ensures opt == 0 <==> Connect(dir, name).Some?
      ensures opt == 0 ==> newdir == Connect(dir, name).value && CStr(newdir) && realdir == HostPath(root, newdir)
    {
      newdir, realdir := "", "";
      var newBuf := new char[MAX_BUF];
      var realBuf := new char[MAX_BUF];
      ghost var iterations;
      opt, iterations := ConnectDir(dir, name, newBuf);
      if opt == 0 {
        ghost var d := Connect(dir, name).value;
        var n := StrLen(newBuf, d);
        HeldPrefix(newBuf[..], d);
        newdir := newBuf[..n];
        RealDir(root, newdir, realBuf);
        var m := StrLen(realBuf, HostPath(root, newdir));
        HeldPrefix(realBuf[..], HostPath(root, newdir));
        realdir := realBuf[..m];
      }
    }

    method Cwd(root: string, line: string, env: C.Env) returns (r: int, notes: seq<C.Note>)
      requires CStr(root) && root != "" && CStr(dir) && Rooted(dir) && CStr(line)
      requires |line| >= 4 ==> HostFits(root, dir, line[4..])
      modifies this
      ensures -2 <= r <= 0
      ensures C.Result(r, View(), notes, None) == C.Cwd(root, old(View()), line, env)
      ensures CStr(dir)
    {
      notes := [];
      if |line| < 4 {
        return -1, notes;
      }
      var opt, newdir, realdir := Locate(root, line[4..]);
      if opt == -1 {
        return -1, notes;
      }
      notes := [C.Touch(realdir)];
      if !env.dirOk {
        return -2, notes;
      }
      dir := newdir;
      r := 0;
    }

    method Rmd(root: string, line: string, env: C.Env) returns (r: int, notes: seq<C.Note>)
      requires CStr(root) && root != "" && CStr(dir) && Rooted(dir) && CStr(line)
      requires |line| >= 4 ==> HostFits(root, dir, line[4..])
      ensures -2 <= r <= 0
      ensures C.Result(r, View(), notes, None) == C.Rmd(root, View(), line, env)
    {
      notes := [];
      if |line| < 4 {
        return -1, notes;
      }
      var opt, newdir, realdir := Locate(root, line[4..]);
      if opt == -1 {
        return -1, notes;
      }
      notes := [C.Touch(realdir)];
      r := if env.fsOk then 0 else -2;
    }

    method Rnfr(root: string, line: string, env: C.Env) returns (r: int, notes: seq<C.Note>)
      requires CStr(root) && root != "" && CStr(dir) && Rooted(dir) && CStr(line)
      requires |line| >= 5 ==> HostFits(root, dir, line[5..])
      modifies this
      ensures -2 <= r <= 0
      ensures C.Result(r, View(), notes, None) == C.Rnfr(root, old(View()), line, env)
    {
      notes := [];
      if |line| < 5 {
        return -1, notes;
      }
      var opt, newdir, realdir := Locate(root, line[5..]);
      if opt == -1 {
        return -1, notes;
      }
      notes := [C.Touch(realdir)];
      if !env.fsOk {
        return -2, notes;
      }
      rndir := realdir;
      r := 0;
    }

    method Rnto(root: string, line: string, env: C.Env) returns (r: int, notes: seq<C.Note>)
      requires CStr(root) && root != "" && CStr(dir) && Rooted(dir) && CStr(line)
      requires |line| >= 5 ==> HostFits(root, dir, line[5..])
      ensures -2 <= r <= 0
      ensures C.Result(r, View(), notes, None) == C.Rnto(root, View(), line, env)
    {
      notes := [];
      if |line| < 5 {
        return -1, notes;
      }
      var opt, newdir, realdir := Locate(root, line[5..]);
      if opt == -1 {
        return -1, notes;
      }
      notes := [C.Move(rndir, realdir)];
      r := if env.fsOk then 0 else -2;
    }

    /** The record when its worker starts, has finished, and has closed the data connection. */
    method StartTransfer()
      modifies this
      ensures View() == old(View()).(status := C.Transfer) == C.Started(old(View()))
    {
      status := C.Transfer;
    }

    method Release()
      modifies this
      ensures View() == old(View()).(status := C.Available, mode := C.NoMode) == C.Released(old(View()))
    {
      status := C.Available;
      mode := C.NoMode;
    }

    method CloseData()
      modifies this
      ensures View() == old(View()).(dataFd := 0) == C.DataClosed(old(View()))
    {
      dataFd := 0;
    }

    /** The dispatch after the status snapshot. */
    method Interpret(root: string, snapshot: C.Status, line: string, env: C.Env)
      returns (notes: seq<C.Note>, spawn: Option<C.Kind>)
      requires CStr(root) && root != "" && CStr(dir) && Rooted(dir) && CStr(line)
      requires WellFormed(env.here) && (snapshot == C.Available ==> LineFits(root, dir, line))
      modifies this
      ensures var r := C.Interpret(root, old(View()), snapshot, line, env);
              View() == r.client && notes == r.notes && spawn == r.spawn
    {
      hide C.User, C.Pass, C.Serve, VerbOf, LineFits;
      notes, spawn := [], None;
      var r;
      match snapshot {
        case Disconnected =>
        case Connected =>
          match VerbOf(line) {
            case USER =>
              r := User(line);
              notes := [C.Say(if r == 0 then C.UserOk else C.Refused(504))];
            case ERROR => notes := [C.Say(C.Refused(500))];
            case _ => notes := [C.Say(C.Refused(503))];
          }
        case Password =>
          match VerbOf(line) {
            case PASS =>
              r := Pass(line);
              notes := [C.Say(if r == 0 then C.PassOk else C.Refused(504))];
            case ERROR => notes := [C.Say(C.Refused(500))];
            case _ => notes := [C.Say(C.Refused(503))];
          }
        case Available => notes, spawn := Serve(root, line, env);
        case Transfer =>
      }
    }

    method Serve(root: string, line: string, env: C.Env)
      returns (notes: seq<C.Note>, spawn: Option<C.Kind>)
      requires CStr(root) && root != "" && CStr(dir) && Rooted(dir) && CStr(line)
      requires WellFormed(env.here) && LineFits(root, dir, line)
      modifies this
      ensures var r := C.Serve(root, old(View()), line, env);
              View() == r.client && notes == r.notes && spawn == r.spawn
    {
      hide C.BeginTransfer, C.List, C.Cwd, C.Rmd, C.Rnfr, C.Rnto, C.Port, C.Pasv, VerbOf, LineFits;
      notes, spawn := [], None;
      var r: int;
      match VerbOf(line) {
        case SYST => notes := [C.Say(if |line| > 4 then C.Refused(504) else C.System)];
        case TYPE =>
          if |line| != 6 {
            notes := [C.Say(C.Refused(501))];
          } else {
            r := Type(line);
            notes := [C.Say(if r == -1 then C.Refused(504) else C.TypeSet(bytes))];
          }
        case PORT => notes, spawn := ServeData(root, line, env);
        case PASV => notes, spawn := ServeData(root, line, env);
        case RETR => notes, spawn := ServeData(root, line, env);
        case STOR => notes, spawn := ServeData(root, line, env);
        case QUIT => notes := [C.Say(if |line| > 4 then C.Refused(500) else C.Goodbye)];
        case PWD => notes := [C.Say(if |line| != 3 then C.Refused(504) else C.DirIs(dir))];
        case CWD => notes := ServeFiles(root, line, env);
        case MKD => notes := ServeFiles(root, line, env);
        case LIST => notes := ServeFiles(root, line, env);
        case RMD => notes := ServeFiles(root, line, env);
        case RNFR => notes := ServeFiles(root, line, env);
        case RNTO => notes := ServeFiles(root, line, env);
        case _ => notes := [C.Say(C.Refused(500))];
      }
    }

    /** The commands on the data connection. */
    method ServeData(root: string, line: string, env: C.Env)
      returns (notes: seq<C.Note>, spawn: Option<C.Kind>)
      requires root != "" && Rooted(dir) && WellFormed(env.here) && VerbOf(line) in {PORT, PASV, RETR, STOR}
      modifies this
      ensures var r := C.Serve(root, old(View()), line, env);
              View() == r.client && notes == r.notes && spawn == r.spawn
    {
      hide C.BeginTransfer, C.Port, C.Pasv, VerbOf;
      spawn := None;
      var r: int;
      match VerbOf(line) {
        case PORT =>
          r := Port(line);
          notes := [C.Say(if r != 0 then C.Refused(504) else C.PortOk)];
        case PASV =>
          var text;
          r, text := Pasv(line, env);
          notes := [C.Say(if r == -1 then C.Refused(504) else if r == -2 then C.Refused(502) else C.Passive(text))];
        case RETR =>
          r, notes, spawn := Transfer(line, env, C.Send);
          notes := notes + TransferError(r);
        case STOR =>
          r, notes, spawn := Transfer(line, env, C.Receive);
          notes := notes + TransferError(r);
      }
    }

    /** The commands on directories and files. */
    method ServeFiles(root: string, line: string, env: C.Env) returns (notes: seq<C.Note>)
      requires CStr(root) && root != "" && CStr(dir) && Rooted(dir) && CStr(line)
      requires VerbOf(line) in {CWD, MKD, LIST, RMD, RNFR, RNTO} && LineFits(root, dir, line)
      modifies this
      ensures var r := C.Serve(root, old(View()), line, env);
              View() == r.client && notes == r.notes && r.spawn == None
    {
      hide C.List, C.Cwd, C.Rmd, C.Rnfr, C.Rnto, VerbOf, HostFits;
      var r: int;
      match VerbOf(line) {
        case CWD =>
          r, notes := Cwd(root, line, env);
          notes := notes + [C.Say(if r == -1 || r == -2 then C.Refused(504) else C.DirChanged)];
        case MKD => notes := [C.Say(if |line| < 4 then C.Refused(504) else if !env.fsOk then C.Refused(502) else C.Made)];
        case LIST =>
          r, notes := List(root, env);
          if r == -1 {
            notes := notes + [C.Say(C.Refused(550))];
          }
        case RMD =>
          r, notes := Rmd(root, line, env);
          notes := notes + FileReply(r, C.Removed);
        case RNFR =>
          r, notes := Rnfr(root, line, env);
          notes := notes + FileReply(r, C.RenameReady);
        case _ =>
          r, notes := Rnto(root, line, env);
          notes := notes + FileReply(r, C.Renamed);
      }
    }
  }

  function TransferError(r: int): seq<C.Note> {
    if r == -1 then [C.Say(C.Refused(504))]
    else if r == -2 then [C.Say(C.Refused(502))]
    else if r == -3 then [C.Say(C.Refused(425))]
    else []
  }

  function FileReply(r: int, ok: C.Msg): seq<C.Note> {
    [C.Say(if r == -1 then C.Refused(504) else if r == -2 then C.Refused(502) else ok)]
  }

  /** The host path of a successful connect_dir fits in its buffer. */
  predicate HostFits(root: string, dir: string, name: string)
    requires root != "" && Rooted(dir)
  {
    Connect(dir, name).Some? ==> |HostPath(root, Connect(dir, name).value)| < MAX_BUF
  }

  /** It does whenever the texts are short enough, whatever they are. */
  lemma HostFitsWhenShort(root: string, dir: string, name: string)
    requires root != "" && Rooted(dir) && |root| + |dir| + |name| + 2 < MAX_BUF
    ensures HostFits(root, dir, name)
  {
    if Connect(dir, name).Some? {
      NormIsNormal(Raw(dir, name));
    }
  }

  /** The only commands whose host paths are built in a buffer after a successful connect_dir. */
  predicate LineFits(root: string, dir: string, line: string)
    requires root != "" && Rooted(dir)
  {
    match VerbOf(line)
    case CWD => |line| >= 4 ==> HostFits(root, dir, line[4..])
    case RMD => |line| >= 4 ==> HostFits(root, dir, line[4..])
    case RNFR => |line| >= 5 ==> HostFits(root, dir, line[5..])
    case RNTO => |line| >= 5 ==> HostFits(root, dir, line[5..])
    case _ => true
  }

  lemma DottedIsCStr(e: Endpoint)
    requires WellFormed(e)
    ensures CStr(Dotted(e))
  {
  }
}
