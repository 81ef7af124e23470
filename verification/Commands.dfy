/** Command lines and verbs (interpreter.c:4-85, interpreter.h:15-31). */
module Commands {
  datatype Verb =
    | USER | PASS | PORT | PASV | RETR | STOR | SYST | TYPE | QUIT
    | MKD | CWD | PWD | LIST | RMD | RNFR | RNTO | ERROR

  /** interpret_comand: the chain of comparisons. */
  function InterpretCommand(word: string): (v: Verb) {
    if word == "USER" then USER
    else if word == "PASS" then PASS
    else if word == "PORT" then PORT
    else if word == "PASV" then PASV
    else if word == "RETR" then RETR
    else if word == "STOR" then STOR
    else if word == "SYST" then SYST
    else if word == "TYPE" then TYPE
    else if word == "QUIT" then QUIT
    else if word == "MKD" then MKD
    else if word == "CWD" then CWD
    else if word == "PWD" then PWD
    else if word == "LIST" then LIST
    else if word == "RMD" then RMD
    else if word == "RNFR" then RNFR
    else if word == "RNTO" then RNTO
    else ERROR
  }

  /** strtok(line, " "): the first run of characters that are not blanks. */
  function FirstWord(line: string): (w: string)
    ensures forall i | 0 <= i < |w| :: w[i] != ' '
  {
    if line == "" then ""
    else if line[0] == ' ' then FirstWord(line[1..])
    else if |line| > 1 && line[1] != ' ' then [line[0]] + FirstWord(line[1..])
    else [line[0]]
  }

  /** The command that the interpreter sees in a line. */
  function VerbOf(line: string): Verb {
    InterpretCommand(FirstWord(line))
  }

  /** A line that `strtok` finds a word in. */
  predicate NotBlank(line: string) {
    exists i :: 0 <= i < |line| && line[i] != ' '
  }

  /** A command that opens the session's data connection when it gets that far. */
  predicate UsesConnection(line: string) {
    match VerbOf(line)
    case LIST => true
    case RETR => |line| >= 6
    case STOR => |line| >= 6
    case _ => false
  }

  // ---------- What a line is read as ----------

  /** The text of a command. */
  function Name(v: Verb): string
    requires v != ERROR
  {
    match v
    case USER => "USER"
    case PASS => "PASS"
    case PORT => "PORT"
    case PASV => "PASV"
    case RETR => "RETR"
    case STOR => "STOR"
    case SYST => "SYST"
    case TYPE => "TYPE"
    case QUIT => "QUIT"
    case MKD => "MKD"
    case CWD => "CWD"
    case PWD => "PWD"
    case LIST => "LIST"
    case RMD => "RMD"
    case RNFR => "RNFR"
    case RNTO => "RNTO"
  }

  lemma CommandIsNamed(word: string)
    requires InterpretCommand(word) != ERROR
    ensures word == Name(InterpretCommand(word))
  {
  }

  lemma NameIsCommand(v: Verb)
    requires v != ERROR
    ensures InterpretCommand(Name(v)) == v
  {
    match v {
      case USER =>
      case PASS =>
      case PORT =>
      case PASV =>
      case RETR =>
      case STOR =>
      case SYST =>
      case TYPE =>
      case QUIT =>
      case MKD =>
      case CWD =>
      case PWD =>
      case LIST =>
      case RMD =>
      case RNFR =>
      case RNTO =>
    }
  }

  /** A word is read as a command exactly when it is the text of that command. */
  lemma CommandIff(word: string, v: Verb)
    requires v != ERROR
    ensures InterpretCommand(word) == v <==> word == Name(v)
  {
    hide InterpretCommand, Name;
    NameIsCommand(v);
    if InterpretCommand(word) != ERROR {
      CommandIsNamed(word);
    }
  }

  predicate AllBlank(s: string) {
    forall i | 0 <= i < |s| :: s[i] == ' '
  }

  predicate NoBlank(s: string) {
    forall i | 0 <= i < |s| :: s[i] != ' '
  }

  /** `w` is a word of the line with blanks only before it. */
  predicate FirstIn(line: string, w: string, before: string, after: string) {
    line == before + (w + after) && w != "" && AllBlank(before) && NoBlank(w) && (after == "" || after[0] == ' ')
  }

  lemma {:induction false} WordFirst(w: string, after: string)
    requires w != "" && NoBlank(w) && (after == "" || after[0] == ' ')
    ensures FirstWord(w + after) == w
    decreases |w|
  {
    var line := w + after;
    assert line[0] == w[0];
    if |w| == 1 {
      assert after != "" ==> line[1] == after[0];
      assert w == [w[0]];
    } else {
      assert line[1] == w[1];
      WordFirst(w[1..], after);
      assert line[1..] == w[1..] + after;
      assert w == [w[0]] + w[1..];
    }
  }

  lemma {:induction false} BlanksFirst(before: string, t: string)
    requires AllBlank(before)
    ensures FirstWord(before + t) == FirstWord(t)
  {
    if before == "" {
      assert before + t == t;
    } else {
      assert (before + t)[1..] == before[1..] + t;
      BlanksFirst(before[1..], t);
    }
  }

  lemma {:induction false} FirstWordIn(line: string) returns (before: string, after: string)
    ensures FirstWord(line) != "" ==> FirstIn(line, FirstWord(line), before, after)
    ensures FirstWord(line) == "" ==> AllBlank(line)
  {
    before, after := "", "";
    if line != "" {
      var b, a := FirstWordIn(line[1..]);
      var rest := FirstWord(line[1..]);
      hide FirstWord, AllBlank;
      assert line == [line[0]] + line[1..];
      if line[0] == ' ' {
        BlankBefore(line, rest, b, a);
        before, after := [' '] + b, a;
      } else if |line| > 1 && line[1] != ' ' {
        after := a;
        AfterOwn(line[1..], rest, b, a);
        LetterBefore(line, rest, a);
      } else {
        after := line[1..];
        OneLetter(line);
      }
    }
  }

  lemma BlankBefore(line: string, w: string, b: string, a: string)
    requires line != "" && line[0] == ' ' && w == FirstWord(line[1..])
    requires if w == "" then AllBlank(line[1..]) else FirstIn(line[1..], w, b, a)
    ensures FirstWord(line) == w
    ensures if w == "" then AllBlank(line) else FirstIn(line, w, [' '] + b, a)
  {
    assert FirstWord(line) == w;
    hide FirstWord;
    assert line == [' '] + line[1..];
    if w != "" {
      Regroup([' '], b, w + a);
      assert AllBlank([' '] + b);
    }
  }

  lemma Regroup(x: string, y: string, z: string)
    ensures x + y + z == x + (y + z)
  {
  }

  lemma LetterBefore(line: string, w: string, a: string)
    requires |line| > 1 && line[0] != ' ' && line[1] != ' ' && w == FirstWord(line[1..])
    requires line[1..] == w + a && NoBlank(w) && (a == "" || a[0] == ' ')
    ensures FirstWord(line) == [line[0]] + w && FirstIn(line, FirstWord(line), "", a)
  {
    assert line == [line[0]] + line[1..];
    assert [line[0]] + w + a == [line[0]] + (w + a);
  }

  lemma OneLetter(line: string)
    requires line != "" && line[0] != ' ' && (|line| == 1 || line[1] == ' ')
    ensures FirstWord(line) == [line[0]] && FirstIn(line, FirstWord(line), "", line[1..])
  {
    assert line == "" + ([line[0]] + line[1..]);
  }

  lemma AfterOwn(line: string, w: string, before: string, after: string)
    requires line != "" && line[0] != ' ' && FirstIn(line, w, before, after)
    ensures before == "" && line == w + after
  {
    assert line[0] == (before + (w + after))[0];
  }

  /** Exactly which word a line is read by. */
  lemma FirstWordIff(line: string, w: string)
    requires w != ""
    ensures FirstWord(line) == w <==> exists before, after :: FirstIn(line, w, before, after)
  {
    if FirstWord(line) == w {
      var before, after := FirstWordIn(line);
    }
    if before, after :| FirstIn(line, w, before, after) {
      BlanksFirst(before, w + after);
      WordFirst(w, after);
    }
  }
}
