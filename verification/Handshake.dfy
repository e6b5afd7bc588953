/** Record and stop commands between the worker's session and its SRT child: a
    command file the session appends to and the child reads and then truncates, and
    a status file the session polls.  Until the first timeout an acknowledgement
    means that the child has executed the very command waited for, although
    commands can be lost on the way; `Timeouts` says what holds after one. */
module Handshake {
  import opened CommandFile
  import opened Text

  /** The child's capture branch; `running`: the child polls. */
  datatype Capture = Capture(recording: bool, dir: string, resets: nat, running: bool)

  /** One line of the command file; `links`: the capture branch could be linked. */
  function Obey(k: Capture, line: Line, links: bool): Capture {
    match line
    case Record(dir) => if links then k.(recording := true, dir := dir) else k
    case Stop => k.(recording := false)
    case Reset => k.(resets := k.resets + 1)
    case Quit => k.(recording := false, running := false)
    case Ignored => k
  }

  /** `id` numbers the record, stop and quit commands; it is not part of the text. */
  datatype Command = Command(id: nat, line: Line)

  /** The command concerns the capture. */
  predicate Acts(c: Command) {
    c.line.Record? || c.line.Stop? || c.line.Quit?
  }

  predicate Wants(c: Command) { c.line.Record? }

  /** The session: at rest, waiting for an acknowledgement, or torn down. */
  datatype Parent = Settled(recording: bool) | Waiting(command: Command) | Closed

  /** The child's poll: nothing taken, read but not truncated, or executing. */
  datatype Phase = Resting | HasRead(raw: seq<Command>) | Running(left: seq<Command>)

  datatype Link = Link(
    parent: Parent,
    file: seq<Command>,
    phase: Phase,
    capture: Capture,
    done: nat,
    status: bool,
    next: nat)

  /** Commands in a list that concern the capture. */
  function Count(s: seq<Command>): nat {
    if s == [] then 0 else Count(s[..|s| - 1]) + if Acts(s[|s| - 1]) then 1 else 0
  }

  lemma {:induction false} CountAppend(a: seq<Command>, b: seq<Command>)
    ensures Count(a + b) == Count(a) + Count(b)
  {
    if b == [] {
      assert a + b == a;
    } else {
      var n := |b| - 1;
      CountAppend(a, b[..n]);
      assert (a + b)[..|a| + n] == a + b[..n] && (a + b)[|a| + n] == b[n];
    }
  }

  lemma {:induction false} CountNone(s: seq<Command>)
    ensures Count(s) == 0 <==> forall c :: c in s ==> !Acts(c)
  {
    if s != [] {
      CountNone(s[..|s| - 1]);
      assert s == s[..|s| - 1] + [s[|s| - 1]];
    }
  }

  /** Abort: an exception leaves the child's poll.  What it had taken is dropped, and
      a callback that does not return true is not called again. */
  datatype Step =
    | Send(command: Command)
    | Acknowledge
    | TimeOut
    | WriteStatus
    | Read
    | Truncate
    | TruncateFails
    | Execute(links: bool)
    | Abort

  ghost predicate Possible(l: Link, step: Step) {
    match step
    case Send(c) =>
      (match c.line
       case Record(_) => l.parent == Settled(false) && c.id == l.next
       case Stop => l.parent == Settled(true) && c.id == l.next
       case Quit => l.parent.Settled? && c.id == l.next
       case _ => true)
    case Acknowledge => l.parent.Waiting? && l.status == Wants(l.parent.command)
    case TimeOut => l.parent.Waiting?
    case WriteStatus => l.phase.Resting? && l.capture.running
    case Read => l.phase.Resting? && l.capture.running
    case Truncate => l.phase.HasRead?
    case TruncateFails => l.phase.HasRead?
    case Execute(_) => l.phase.Running?
    case Abort => l.capture.running
  }

  /** The child takes the first command left; a quit drops the others. */
  function TakeOne(l: Link, links: bool): Link
    requires l.phase.Running?
  {
    if l.phase.left == [] then l.(phase := Resting)
    else
      var c := l.phase.left[0];
      var k := Obey(l.capture, c.line, links);
      l.(capture := k,
         done := if c.line.Stop? || (c.line.Record? && links) then c.id else l.done,
         phase := if k.running then Running(l.phase.left[1..]) else Resting)
  }

  /** After a timeout the session takes itself not to be recording: a refused start
      leaves it so, a stop makes it so.  A file without a command is not truncated. */
  ghost function Next(l: Link, step: Step): Link {
    match step
    case Send(c) =>
      l.(file := l.file + [c],
         parent := if c.line.Quit? then Closed else if Acts(c) then Waiting(c) else l.parent,
         next := if Acts(c) then l.next + 1 else l.next)
    case Acknowledge => if l.parent.Waiting? then l.(parent := Settled(Wants(l.parent.command))) else l
    case TimeOut => l.(parent := Settled(false))
    case WriteStatus => l.(status := l.capture.recording)
    case Read => if l.file == [] then l else l.(phase := HasRead(l.file))
    case Truncate => if l.phase.HasRead? then l.(file := [], phase := Running(l.phase.raw)) else l
    case TruncateFails => l.(phase := Resting)
    case Execute(links) => if l.phase.Running? then TakeOne(l, links) else l
    case Abort => l.(phase := Resting, capture := l.capture.(running := false))
  }

  function Executing(l: Link): seq<Command> {
    if l.phase.Running? then l.phase.left else []
  }

  /** The command was executed, and the capture is as it asks. */
  predicate Executed(l: Link, c: Command) {
    l.done == c.id && l.capture.recording == Wants(c) && (c.line.Record? ==> l.capture.dir == c.line.dir)
  }

  ghost predicate Sound(l: Link) {
    && (l.phase.HasRead? ==> l.phase.raw <= l.file)
    && match l.parent
       case Settled(b) =>
         && l.done < l.next && l.status == b && l.capture.recording == b
         && Count(l.file) == 0 && Count(Executing(l)) == 0
       case Waiting(c) =>
         && (c.line.Record? || c.line.Stop?) && c.id + 1 == l.next
         && (forall x :: x in l.file || x in Executing(l) ==> Acts(x) ==> x == c)
         && Count(l.file) + Count(Executing(l)) <= (if l.done == c.id then 0 else 1)
         && (if l.done == c.id then Executed(l, c)
             else l.done < c.id && l.capture.recording == l.status == !Wants(c))
       case Closed => true
  }

  lemma CountOne(c: Command)
    ensures Count([c]) == if Acts(c) then 1 else 0
  {
  }

  lemma SendSound(l: Link, c: Command)
    requires Sound(l) && Possible(l, Send(c))
    ensures Sound(Next(l, Send(c)))
  {
    CountAppend(l.file, [c]);
    CountOne(c);
    CountNone(l.file);
    CountNone(Executing(l));
  }

  lemma ReadSound(l: Link, step: Step)
    requires Sound(l) && Possible(l, step) && (step.Read? || step.Truncate? || step.TruncateFails?)
    ensures Sound(Next(l, step))
  {
    if step.Truncate? {
      assert l.file == l.phase.raw + l.file[|l.phase.raw|..];
      CountAppend(l.phase.raw, l.file[|l.phase.raw|..]);
    }
  }

  lemma CountHead(s: seq<Command>)
    requires s != []
    ensures Count(s) == Count(s[1..]) + if Acts(s[0]) then 1 else 0
  {
    assert s == [s[0]] + s[1..];
    CountAppend([s[0]], s[1..]);
    CountOne(s[0]);
  }

  lemma ExecuteSettled(l: Link, links: bool)
    requires Sound(l) && l.phase.Running? && l.phase.left != [] && l.parent.Settled?
    ensures Sound(TakeOne(l, links))
  {
    CountNone(l.phase.left);
    assert l.phase.left[0] in l.phase.left;
    CountHead(l.phase.left);
  }

  lemma ExecuteWaiting(l: Link, links: bool)
    requires Sound(l) && l.phase.Running? && l.phase.left != [] && l.parent.Waiting?
    ensures Sound(TakeOne(l, links))
  {
    assert l.phase.left[0] in l.phase.left;
    CountHead(l.phase.left);
  }

  lemma ExecuteSound(l: Link, links: bool)
    requires Sound(l) && Possible(l, Execute(links))
    ensures Sound(Next(l, Execute(links)))
  {
    if l.phase.left != [] {
      match l.parent
      case Settled(_) => ExecuteSettled(l, links);
      case Waiting(_) => ExecuteWaiting(l, links);
      case Closed =>
    }
  }

  lemma StepSound(l: Link, step: Step)
    requires Sound(l) && Possible(l, step) && !step.TimeOut?
    ensures Sound(Next(l, step))
  {
    match step
    case Send(c) => SendSound(l, c);
    case Execute(links) => ExecuteSound(l, links);
    case Acknowledge =>
    case WriteStatus =>
    case Abort =>
    case _ => ReadSound(l, step);
  }

  ghost predicate Runs(l: Link, steps: seq<Step>) {
    steps == [] || (Runs(l, steps[..|steps| - 1]) && Possible(After(l, steps[..|steps| - 1]), steps[|steps| - 1]))
  }

  ghost function After(l: Link, steps: seq<Step>): Link {
    if steps == [] then l else Next(After(l, steps[..|steps| - 1]), steps[|steps| - 1])
  }

  /** A child that reported ready: nothing recorded, nothing sent. */
  ghost predicate Fresh(l: Link) {
    && l.parent == Settled(false) && l.file == [] && l.phase == Resting && !l.status
    && !l.capture.recording && l.capture.running && l.done < l.next
  }

  ghost predicate InTime(steps: seq<Step>) {
    forall i :: 0 <= i < |steps| ==> !steps[i].TimeOut?
  }

  lemma {:induction false} RunSound(l: Link, steps: seq<Step>)
    requires Fresh(l) && Runs(l, steps) && InTime(steps)
    ensures Sound(After(l, steps))
  {
    if steps != [] {
      RunSound(l, steps[..|steps| - 1]);
      StepSound(After(l, steps[..|steps| - 1]), steps[|steps| - 1]);
    }
  }

  /** Up to the first timeout, whatever was lost on the way, and however polls and
      commands interleave: when the session sees the state it waits for, the child has executed that very
      command, for a record into that directory, and nothing that could undo it is
      left to run. */
  lemma AcknowledgedMeansExecuted(l: Link, steps: seq<Step>)
    requires Fresh(l) && Runs(l, steps) && InTime(steps) && Possible(After(l, steps), Acknowledge)
    ensures var end := After(l, steps);
      && Executed(end, end.parent.command)
      && (forall x :: x in end.file || x in Executing(end) ==> !Acts(x))
  {
    RunSound(l, steps);
    CountNone(After(l, steps).file);
    CountNone(Executing(After(l, steps)));
  }

  /** And at rest the two agree on whether the channel records. */
  lemma SettledAgrees(l: Link, steps: seq<Step>)
    requires Fresh(l) && Runs(l, steps) && InTime(steps) && After(l, steps).parent.Settled?
    ensures After(l, steps).capture.recording == After(l, steps).parent.recording
  {
    RunSound(l, steps);
  }

  /** Commands do get lost: a record sent between the child's read and its truncate
      is gone, and the session waits for nothing. */
  lemma CommandsAreLost(l: Link, dir: string)
    requires Fresh(l)
    ensures var c := Command(l.next, Record(dir));
            var l1 := Next(l, Send(Command(0, Reset)));
            var l2 := Next(l1, Read); var l3 := Next(l2, Send(c)); var l4 := Next(l3, Truncate);
      && Possible(l, Send(Command(0, Reset))) && Possible(l1, Read) && Possible(l2, Send(c)) && Possible(l3, Truncate)
      && l4.parent == Waiting(c) && l4.file == [] && c !in Executing(l4)
  {
  }

  // ------------------------------------------------- the child, line by line

  /** What a poll makes of the lines it took; `links(i)` is the outcome for line i. */
  function ObeyAll(k: Capture, lines: seq<Line>, links: nat -> bool): Capture {
    if lines == [] then k
    else
      var before := ObeyAll(k, lines[..|lines| - 1], links);
      if before.running then Obey(before, lines[|lines| - 1], links(|lines| - 1)) else before
  }

  lemma {:induction false} StoppedStays(k: Capture, lines: seq<Line>, n: nat, links: nat -> bool)
    requires n <= |lines| && !ObeyAll(k, lines[..n], links).running
    ensures ObeyAll(k, lines, links) == ObeyAll(k, lines[..n], links)
  {
    if n < |lines| {
      assert lines[..|lines| - 1][..n] == lines[..n];
      StoppedStays(k, lines[..|lines| - 1], n, links);
    } else {
      assert lines[..n] == lines;
    }
  }

  class SrtChild {
    var capture: Capture
    var file: string

    method ObeyLine(line: Line, links: bool)
      modifies this`capture
      ensures capture == Obey(old(capture), line, links)
    {
      match line {
        case Quit =>
          capture := capture.(recording := false, running := false);
        case Record(dir) =>
          if links {
            capture := capture.(recording := true, dir := dir);
          }
        case Stop =>
          capture := capture.(recording := false);
        case Reset =>
          capture := capture.(resets := capture.resets + 1);
        case Ignored =>
      }
    }

    /** The loop of `_drain_cmds` over the lines taken; a quit leaves it. */
    method ObeyLines(lines: seq<Line>, links: nat -> bool)
      requires capture.running
      modifies this`capture
      ensures capture == ObeyAll(old(capture), lines, links)
    {
      for i := 0 to |lines|
        invariant capture.running && capture == ObeyAll(old(capture), lines[..i], links)
      {
        assert lines[..i + 1][..i] == lines[..i];
        ObeyLine(lines[i], links(i));
        if !capture.running {
          StoppedStays(old(capture), lines, i + 1, links);
          return;
        }
      }
      assert lines[..|lines|] == lines;
    }

    /** `_drain_cmds`; false ends the polling. */
    method DrainCmds(truncates: bool, links: nat -> bool) returns (again: bool)
      requires capture.running
      modifies this
      ensures again == capture.running
      ensures if Strip(old(file)) == "" || !truncates
              then capture == old(capture) && file == old(file)
              else capture == ObeyAll(old(capture), ParseAll(SplitLines(old(file))), links) && file == ""
    {
      var raw := file;
      if Strip(raw) == "" || !truncates {
        return true;
      }
      file := "";
      ObeyLines(ParseAll(SplitLines(raw)), links);
      again := capture.running;
    }
  }

  /** `count` executions in a row, with the outcomes `links(from)` onwards. */
  ghost function ExecuteMany(l: Link, count: nat, from: nat, links: nat -> bool): Link
    decreases count
  {
    if count == 0 then l else Next(ExecuteMany(l, count - 1, from, links), Execute(links(from + count - 1)))
  }

  function LinesOf(cs: seq<Command>): seq<Line> {
    seq(|cs|, i requires 0 <= i < |cs| => cs[i].line)
  }

  /** The steps of the handshake are the child's loop: executing what one poll took
      leaves the capture the loop leaves. */
  lemma {:induction false} PollIsDrain(l: Link, n: nat, links: nat -> bool)
    requires l.phase.Running? && l.capture.running && n <= |l.phase.left|
    ensures var end := ExecuteMany(l, n, 0, links);
      && end.capture == ObeyAll(l.capture, LinesOf(l.phase.left)[..n], links)
      && end.phase == if end.capture.running then Running(l.phase.left[n..]) else Resting
  {
    if n > 0 {
      PollIsDrain(l, n - 1, links);
      var lines := LinesOf(l.phase.left);
      assert lines[..n][..n - 1] == lines[..n - 1] && lines[..n][n - 1] == l.phase.left[n - 1].line;
      var before := ExecuteMany(l, n - 1, 0, links);
      if before.capture.running {
        assert l.phase.left[n - 1..][0] == l.phase.left[n - 1] && l.phase.left[n - 1..][1..] == l.phase.left[n..];
      }
    }
  }

  // ------------------------------------------------------------- the session

  /** One look at the status file: its flag unless unreadable, and whether the
      child was dead right after. */
  datatype Look = Unreadable(dead: bool) | Flag(recording: bool, dead: bool)

  datatype StartResult = Started | NotConnected | AlreadyRecording | NotAcknowledged

  /** Looks taken: all before a match the child was alive. */
  ghost predicate SeenAt(looks: seq<Look>, want: bool, i: nat) {
    i < |looks| && looks[i].Flag? && looks[i].recording == want && forall j :: 0 <= j < i ==> !looks[j].dead
  }

  class ChannelSession {
    var recording: bool
    var file: string
    var sent: seq<Line>

    constructor ()
      ensures !recording && file == "" && sent == []
    {
      recording, file, sent := false, "", [];
    }

    ghost predicate Valid()
      reads this
    {
      file == AppendAll(sent)
    }

    method SendCmd(line: Line)
      requires Valid()
      modifies this`file, this`sent
      ensures Valid() && sent == old(sent) + [line]
    {
      file := Append(file, line);
      sent := sent + [line];
      assert sent[..|sent| - 1] == old(sent);
    }

    /** `_wait_srt_recording`: `looks` are the polls before the deadline. */
    method WaitSrtRecording(want: bool, looks: seq<Look>) returns (seen: bool)
      ensures seen <==> exists i :: SeenAt(looks, want, i)
    {
      for i := 0 to |looks|
        invariant forall j :: 0 <= j < i ==> !looks[j].dead && !(looks[j].Flag? && looks[j].recording == want)
      {
        if looks[i].Flag? && looks[i].recording == want {
          assert SeenAt(looks, want, i);
          return true;
        }
        if looks[i].dead {
          return false;
        }
      }
      return false;
    }

    /** `start_recording` of a session with an SRT child. */
    method StartRecording(connected: bool, dir: string, looks: seq<Look>) returns (result: StartResult)
      requires Valid()
      modifies this
      ensures Valid()
      ensures result == if !connected then NotConnected else if old(recording) then AlreadyRecording
                        else if exists i :: SeenAt(looks, true, i) then Started else NotAcknowledged
      ensures recording == (old(recording) || result == Started)
      ensures sent == if connected && !old(recording) then old(sent) + [Record(dir)] else old(sent)
    {
      if !connected {
        return NotConnected;
      }
      if recording {
        return AlreadyRecording;
      }
      SendCmd(Record(dir));
      var seen := WaitSrtRecording(true, looks);
      if !seen {
        return NotAcknowledged;
      }
      recording := true;
      return Started;
    }

    /** `stop_recording`: records no more, acknowledged or not. */
    method StopRecording(looks: seq<Look>) returns (acknowledged: bool)
      requires Valid()
      modifies this
      ensures Valid() && !recording
      ensures sent == if old(recording) then old(sent) + [Stop] else old(sent)
      ensures acknowledged <==> !old(recording) || exists i :: SeenAt(looks, false, i)
    {
      if !recording {
        return true;
      }
      SendCmd(Stop);
      acknowledged := WaitSrtRecording(false, looks);
      recording := false;
    }
  }
}
