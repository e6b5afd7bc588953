/** The text of the SRT child's command file: what the session appends, what the
    child reads back. */
module CommandFile {
  import opened Text

  datatype Line = Record(dir: string) | Stop | Reset | Quit | Ignored

  /** Length of the first word. */
  function FirstWord(s: string): (n: nat)
    ensures n <= |s| && NoSpace(s[..n]) && (n < |s| ==> IsSpace(s[n]))
  {
    if s == "" || IsSpace(s[0]) then 0 else 1 + FirstWord(s[1..])
  }

  function Classify(op: string, rest: string): Line {
    if op == "quit" then Quit
    else if op == "record" && rest != "" then Record(rest)
    else if op == "stop" then Stop
    else if op == "etr290_reset" then Reset
    else Ignored
  }

  /** `line.strip()`, then `split(maxsplit=1)`. */
  function ParseLine(line: string): Line {
    var s := Strip(line);
    var n := FirstWord(s);
    Classify(s[..n], LStrip(s[n..]))
  }

  function ParseAll(lines: seq<string>): seq<Line> {
    seq(|lines|, i requires 0 <= i < |lines| => ParseLine(lines[i]))
  }

  /** A directory that survives: text on one line, no white space at its ends. */
  predicate Plain(dir: string) {
    dir != "" && NoBreak(dir) && !IsSpace(dir[0]) && !IsSpace(dir[|dir| - 1])
  }

  predicate Writable(line: Line) {
    match line
    case Record(dir) => Plain(dir)
    case Ignored => false
    case _ => true
  }

  function Written(line: Line): string {
    match line
    case Record(dir) => "record" + (" " + dir)
    case Stop => "stop"
    case Reset => "etr290_reset"
    case Quit => "quit"
    case Ignored => ""
  }

  /** `_srt_send_cmd`. */
  function Append(file: string, line: Line): string {
    file + RStrip(Written(line)) + "\n"
  }

  function AppendAll(lines: seq<Line>): string {
    if lines == [] then "" else Append(AppendAll(lines[..|lines| - 1]), lines[|lines| - 1])
  }

  lemma {:induction false} FirstWordAt(op: string, rest: string)
    requires NoSpace(op) && (rest == "" || IsSpace(rest[0]))
    ensures FirstWord(op + rest) == |op|
  {
    if op == "" {
      assert op + rest == rest;
    } else {
      assert (op + rest)[1..] == op[1..] + rest;
      FirstWordAt(op[1..], rest);
    }
  }

  lemma WordParses(op: string)
    requires op != "" && NoSpace(op)
    ensures ParseLine(op) == Classify(op, "") && NoBreak(op) && RStrip(op) == op
  {
    StripKeeps(op);
    FirstWordAt(op, "");
    assert op + "" == op && op[..|op|] == op && op[|op|..] == "";
  }

  lemma WordAndRestParse(op: string, rest: string)
    requires op != "" && NoSpace(op) && Plain(rest)
    ensures ParseLine(op + (" " + rest)) == Classify(op, rest)
    ensures NoBreak(op + (" " + rest)) && RStrip(op + (" " + rest)) == op + (" " + rest)
  {
    var tail := " " + rest;
    var s := op + tail;
    assert s[0] == op[0] && s[|s| - 1] == rest[|rest| - 1];
    StripKeeps(s);
    FirstWordAt(op, tail);
    assert s[..|op|] == op && s[|op|..] == tail && tail[1..] == rest;
    assert LStrip(tail) == rest;
  }

  lemma RecordParses(dir: string)
    requires Plain(dir)
    ensures ParseLine(Written(Record(dir))) == Record(dir) && NoBreak(Written(Record(dir)))
    ensures RStrip(Written(Record(dir))) == Written(Record(dir))
  {
    WordAndRestParse("record", dir);
  }

  lemma StopParses()
    ensures ParseLine(Written(Stop)) == Stop && NoBreak(Written(Stop)) && RStrip(Written(Stop)) == Written(Stop)
  {
    WordParses("stop");
  }

  lemma ResetParses()
    ensures ParseLine(Written(Reset)) == Reset && NoBreak(Written(Reset)) && RStrip(Written(Reset)) == Written(Reset)
  {
    WordParses("etr290_reset");
  }

  lemma QuitParses()
    ensures ParseLine(Written(Quit)) == Quit && NoBreak(Written(Quit)) && RStrip(Written(Quit)) == Written(Quit)
  {
    WordParses("quit");
  }

  lemma WrittenParses(line: Line)
    requires Writable(line)
    ensures ParseLine(Written(line)) == line && NoBreak(Written(line))
    ensures RStrip(Written(line)) == Written(line)
  {
    match line
    case Record(dir) => RecordParses(dir);
    case Stop => StopParses();
    case Reset => ResetParses();
    case Quit => QuitParses();
  }

  ghost predicate AllWritable(lines: seq<Line>) {
    forall i :: 0 <= i < |lines| ==> Writable(lines[i])
  }

  function Texts(lines: seq<Line>): seq<string> {
    seq(|lines|, i requires 0 <= i < |lines| => Written(lines[i]))
  }

  /** Lines written one after another, each with its newline. */
  function Concat(texts: seq<string>): string {
    if texts == [] then "" else Concat(texts[..|texts| - 1]) + texts[|texts| - 1] + "\n"
  }

  lemma {:induction false} AppendedTexts(lines: seq<Line>)
    requires AllWritable(lines)
    ensures AppendAll(lines) == Concat(Texts(lines))
  {
    if lines != [] {
      var init, last := lines[..|lines| - 1], lines[|lines| - 1];
      AppendedTexts(init);
      WrittenParses(last);
      var texts := Texts(lines);
      assert texts[..|lines| - 1] == Texts(init) && texts[|lines| - 1] == Written(last);
      AppendOne(AppendAll(init), last, Written(last));
    }
  }

  lemma AppendOne(file: string, line: Line, text: string)
    requires RStrip(Written(line)) == text
    ensures Append(file, line) == file + text + "\n"
  {
  }

  lemma {:induction false} ConcatSplits(texts: seq<string>, rest: string)
    requires LinesOk(texts)
    ensures SplitLines(Concat(texts) + rest) == texts + SplitLines(rest)
  {
    if texts == [] {
      assert Concat(texts) + rest == rest;
    } else {
      var init, last := texts[..|texts| - 1], texts[|texts| - 1];
      ConcatSplits(init, last + "\n" + rest);
      SplitFirst(last, rest);
      Regroup(Concat(init), last, rest);
      Cons(texts, SplitLines(rest));
    }
  }

  /** What the child reads is what the session appended, command by command. */
  lemma FileRoundTrip(lines: seq<Line>)
    requires AllWritable(lines)
    ensures ParseAll(SplitLines(AppendAll(lines))) == lines
  {
    var texts := Texts(lines);
    AppendedTexts(lines);
    forall i | 0 <= i < |lines| ensures ParseLine(texts[i]) == lines[i] && NoBreak(texts[i]) {
      WrittenParses(lines[i]);
    }
    ConcatSplits(texts, "");
    assert Concat(texts) + "" == Concat(texts) && texts + [] == texts;
  }
}
