/** The handshake after timeouts: exactly when an acknowledgement still means that
    the command waited for was executed. */
module Timeouts {
  import opened CommandFile
  import opened Handshake

  /** What holds in every run, timeouts included: identifiers are spent once, and
      only a teardown sends a quit. */
  ghost predicate Tidy(l: Link) {
    && (l.phase.HasRead? ==> l.phase.raw <= l.file)
    && l.done < l.next
    && (forall x :: x in l.file || x in Executing(l) ==> Acts(x) ==> x.id < l.next)
    && (l.parent.Waiting? ==> l.parent.command.id + 1 == l.next)
    && (!l.phase.Resting? ==> l.capture.running)
    && (!l.parent.Closed? ==> forall x :: x in l.file || x in Executing(l) ==> !x.line.Quit?)
  }

  lemma StepTidy(l: Link, step: Step)
    requires Tidy(l) && Possible(l, step)
    ensures Tidy(Next(l, step))
  {
    if step.Execute? && l.phase.left != [] {
      assert l.phase.left == [l.phase.left[0]] + l.phase.left[1..];
    }
  }

  lemma {:induction false} RunTidy(l: Link, steps: seq<Step>)
    requires Fresh(l) && Runs(l, steps)
    ensures Tidy(After(l, steps))
  {
    if steps != [] {
      RunTidy(l, steps[..|steps| - 1]);
      StepTidy(After(l, steps[..|steps| - 1]), steps[|steps| - 1]);
    }
  }

  /** The session only waits: it does not give up and sends nothing about the
      capture. */
  ghost predicate Sits(steps: seq<Step>) {
    forall i :: 0 <= i < |steps| ==>
      !steps[i].Acknowledge? && !steps[i].TimeOut? && (steps[i].Send? ==> !Acts(steps[i].command))
  }

  /** A wait for `c` that ends with an acknowledgement although `c` was not executed. */
  ghost predicate Misled(l: Link, c: Command, steps: seq<Step>) {
    Sits(steps) && Runs(l, steps) && Possible(After(l, steps), Acknowledge) && !Executed(After(l, steps), c)
  }

  /** Whatever happens while the session waits for the command it sends, an
      acknowledgement means that this command was executed. */
  ghost predicate Honest(l: Link, c: Command) {
    forall steps :: !Misled(Next(l, Send(c)), c, steps)
  }

  // ------------------------------------------------------------ the condition

  /** The recording flag after the commands of `s` were executed on a capture with
      flag `b`, every link succeeding or none. */
  function Leaves(s: seq<Command>, b: bool, links: bool): bool {
    if s == [] then b
    else
      var before := Leaves(s[..|s| - 1], b, links);
      match s[|s| - 1].line
      case Record(_) => links || before
      case Stop => false
      case Quit => false
      case _ => before
  }

  /** Sending `c` now is safe: the status does not say yet what `c` asks for, and
      while the child polls no batch it can finish without executing `c` leaves the
      capture saying so either.  What is still in the file is such a batch for a
      record, which may fail to link, and not for a stop. */
  ghost predicate Ready(l: Link, c: Command) {
    var want := Wants(c);
    && l.status == !want
    && (l.capture.running ==>
          && (want ==> !Leaves(l.file, false, true))
          && match l.phase
             case Resting => l.capture.recording == !want
             case HasRead(raw) => l.capture.recording == !want && Leaves(raw, !want, want) == !want
             case Running(left) => Leaves(left, l.capture.recording, want) == !want)
  }

  // ---------------------------------------------------- a safe wait stays safe

  /** The same, with `c` itself executed without effect. */
  function LeavesBut(s: seq<Command>, b: bool, c: Command): bool {
    if s == [] then b
    else
      var before := LeavesBut(s[..|s| - 1], b, c);
      if s[|s| - 1] == c then before
      else match s[|s| - 1].line
        case Record(_) => Wants(c) || before
        case Stop => false
        case Quit => false
        case _ => before
  }

  lemma {:induction false} LeavesSame(s: seq<Command>, b: bool, c: Command)
    requires c !in s
    ensures LeavesBut(s, b, c) == Leaves(s, b, Wants(c))
  {
    if s != [] {
      assert s[|s| - 1] in s;
      LeavesSame(s[..|s| - 1], b, c);
    }
  }

  lemma {:induction false} LeavesMonotone(s: seq<Command>, c: Command)
    ensures LeavesBut(s, false, c) ==> LeavesBut(s, true, c)
  {
    if s != [] {
      LeavesMonotone(s[..|s| - 1], c);
    }
  }

  function LeavesOne(x: Command, b: bool, c: Command): bool {
    if x == c then b
    else match x.line
      case Record(_) => Wants(c) || b
      case Stop => false
      case Quit => false
      case _ => b
  }

  lemma {:induction false} LeavesHead(s: seq<Command>, b: bool, c: Command)
    requires s != []
    ensures LeavesBut(s, b, c) == LeavesBut(s[1..], LeavesOne(s[0], b, c), c)
  {
    if |s| > 1 {
      LeavesHead(s[..|s| - 1], b, c);
      assert s[1..][..|s| - 2] == s[..|s| - 1][1..];
    }
  }

  lemma LeavesSnoc(s: seq<Command>, x: Command, b: bool, c: Command)
    ensures LeavesBut(s + [x], b, c) == LeavesOne(x, LeavesBut(s, b, c), c)
  {
    assert (s + [x])[..|s|] == s;
  }

  /** A batch that does not leave what `c` asks for, or a stop that is in it. */
  predicate Harmless(s: seq<Command>, b: bool, c: Command) {
    LeavesBut(s, b, c) == !Wants(c) || (c.line.Stop? && c in s)
  }

  /** Nothing about the capture comes after `c`. */
  predicate EndsWith(s: seq<Command>, c: Command) {
    forall i, j :: 0 <= i < j < |s| && s[i] == c ==> !Acts(s[j])
  }

  /** The commands still to come: identifiers before `c`'s, and nothing after it. */
  ghost predicate Upcoming(l: Link, c: Command) {
    && (forall x :: x in l.file || x in Executing(l) ==> Acts(x) && x != c ==> !x.line.Quit? && x.id < c.id)
    && EndsWith(l.file, c) && EndsWith(Executing(l), c)
    && (c in Executing(l) ==> forall x :: x in l.file ==> !Acts(x))
  }

  /** While the session waits, `c` not executed. */
  ghost predicate Pending(l: Link, c: Command) {
    && l.done != c.id && l.status == !Wants(c) && Upcoming(l, c)
    && (l.capture.running ==>
          && Harmless(l.file, !Wants(c), c)
          && match l.phase
             case Resting => l.capture.recording == !Wants(c)
             case HasRead(raw) => l.capture.recording == !Wants(c) && Harmless(raw, !Wants(c), c)
             case Running(left) => Harmless(left, l.capture.recording, c))
  }

  ghost predicate Awaits(l: Link, c: Command) {
    && l.parent == Waiting(c) && (c.line.Record? || c.line.Stop?)
    && (l.phase.HasRead? ==> l.phase.raw <= l.file)
    && (!l.phase.Resting? ==> l.capture.running)
    && if l.done == c.id then Executed(l, c) && forall x :: x in l.file || x in Executing(l) ==> !Acts(x)
       else Pending(l, c)
  }

  /** One command of a batch, whatever its link. */
  lemma HarmlessHead(s: seq<Command>, k: Capture, c: Command, links: bool)
    requires s != [] && Harmless(s, k.recording, c) && !s[0].line.Quit?
    requires s[0] != c || (c.line.Record? && !links)
    ensures Harmless(s[1..], Obey(k, s[0].line, links).recording, c)
  {
    LeavesHead(s, k.recording, c);
    LeavesMonotone(s[1..], c);
    assert s == [s[0]] + s[1..];
  }

  lemma UpcomingTail(l: Link, c: Command, links: bool)
    requires Upcoming(l, c) && l.phase.Running? && l.phase.left != [] && Acts(c)
    ensures Upcoming(TakeOne(l, links), c)
    ensures l.phase.left[0] == c ==> forall x :: x in l.file || x in l.phase.left[1..] ==> !Acts(x)
  {
    var s := l.phase.left;
    assert s[0] in s;
    assert forall y :: y in s[1..] ==> y in s;
    assert forall i :: 0 <= i < |s| - 1 ==> s[1..][i] == s[i + 1];
  }

  lemma PendingExecute(l: Link, c: Command, links: bool)
    requires Awaits(l, c) && l.done != c.id && l.phase.Running? && l.phase.left != []
    ensures Awaits(TakeOne(l, links), c)
  {
    var x, rest := l.phase.left[0], l.phase.left[1..];
    assert x in l.phase.left && x in Executing(l);
    UpcomingTail(l, c, links);
    if x == c && (c.line.Stop? || links) {
      assert Executed(TakeOne(l, links), c);
    } else {
      HarmlessHead(l.phase.left, l.capture, c, links);
      assert x != c && Acts(x) ==> x.id < c.id;
    }
  }

  lemma DoneExecute(l: Link, c: Command, links: bool)
    requires Awaits(l, c) && l.done == c.id && l.phase.Running? && l.phase.left != []
    ensures Awaits(TakeOne(l, links), c)
  {
    var x, rest := l.phase.left[0], l.phase.left[1..];
    assert x in l.phase.left && x in Executing(l);
    assert forall y :: y in rest ==> y in l.phase.left;
  }

  lemma AwaitsExecute(l: Link, c: Command, links: bool)
    requires Awaits(l, c) && Possible(l, Execute(links))
    ensures Awaits(Next(l, Execute(links)), c)
  {
    if l.phase.left != [] {
      if l.done == c.id { DoneExecute(l, c, links); } else { PendingExecute(l, c, links); }
    }
  }

  lemma AwaitsRead(l: Link, c: Command, step: Step)
    requires Awaits(l, c) && Possible(l, step) && (step.Read? || step.Truncate? || step.TruncateFails?)
    ensures Awaits(Next(l, step), c)
  {
  }

  lemma AwaitsSend(l: Link, c: Command, x: Command)
    requires Awaits(l, c) && !Acts(x)
    ensures Awaits(Next(l, Send(x)), c)
  {
    LeavesSnoc(l.file, x, !Wants(c), c);
  }

  lemma AwaitsStep(l: Link, c: Command, step: Step)
    requires Awaits(l, c) && Possible(l, step) && Sits([step])
    ensures Awaits(Next(l, step), c)
  {
    assert [step][0] == step;
    match step
    case Execute(links) => AwaitsExecute(l, c, links);
    case Send(x) => AwaitsSend(l, c, x);
    case WriteStatus =>
    case Abort =>
    case _ => AwaitsRead(l, c, step);
  }

  lemma {:induction false} AwaitsRun(l: Link, c: Command, steps: seq<Step>)
    requires Awaits(l, c) && Runs(l, steps) && Sits(steps)
    ensures Awaits(After(l, steps), c)
  {
    if steps != [] {
      AwaitsRun(l, c, steps[..|steps| - 1]);
      AwaitsStep(After(l, steps[..|steps| - 1]), c, steps[|steps| - 1]);
    }
  }

  lemma ReadyAwaits(l: Link, c: Command)
    requires Tidy(l) && l.parent == Settled(!Wants(c)) && (c.line.Record? || c.line.Stop?) && c.id == l.next
    requires Ready(l, c)
    ensures Awaits(Next(l, Send(c)), c)
  {
    var m := Next(l, Send(c));
    LeavesSnoc(l.file, c, !Wants(c), c);
    assert m.file[|l.file|] == c;
    LeavesSame(l.file, !Wants(c), c);
    if l.phase.HasRead? { LeavesSame(l.phase.raw, !Wants(c), c); }
    if l.phase.Running? { LeavesSame(l.phase.left, l.capture.recording, c); }
  }

  lemma ReadyIsHonest(l: Link, c: Command)
    requires Tidy(l) && l.parent == Settled(!Wants(c)) && (c.line.Record? || c.line.Stop?) && c.id == l.next
    requires Ready(l, c)
    ensures Honest(l, c)
  {
    var m := Next(l, Send(c));
    ReadyAwaits(l, c);
    forall steps ensures !Misled(m, c, steps) {
      if Sits(steps) && Runs(m, steps) { AwaitsRun(m, c, steps); }
    }
  }

  // ------------------------------------------------- an unsafe wait can mislead

  lemma {:induction false} RunsAppend(l: Link, a: seq<Step>, b: seq<Step>)
    ensures Runs(l, a + b) <==> Runs(l, a) && Runs(After(l, a), b)
    ensures After(l, a + b) == After(After(l, a), b)
  {
    if b == [] {
      assert a + b == a;
    } else {
      assert (a + b)[..|a + b| - 1] == a + b[..|b| - 1] && (a + b)[|a + b| - 1] == b[|b| - 1];
      RunsAppend(l, a, b[..|b| - 1]);
    }
  }

  lemma MisledLater(l: Link, c: Command, first: seq<Step>, steps: seq<Step>)
    requires Sits(first) && Runs(l, first) && Misled(After(l, first), c, steps)
    ensures Misled(l, c, first + steps)
  {
    RunsAppend(l, first, steps);
  }

  lemma OneStep(l: Link, step: Step)
    ensures Runs(l, [step]) <==> Possible(l, step)
    ensures After(l, [step]) == Next(l, step)
  {
    assert [step][..0] == [];
  }

  /** The session waits for `c`, and the child has not executed it. */
  ghost predicate Unserved(l: Link, c: Command) {
    l.parent == Waiting(c) && (c.line.Record? || c.line.Stop?) && l.done != c.id && l.capture.running
  }

  predicate Older(s: seq<Command>, c: Command) {
    forall i :: 0 <= i < |s| ==> !s[i].line.Quit? && (Acts(s[i]) ==> s[i].id < c.id)
  }

  /** A capture that says what is waited for, once the child is at rest, misleads. */
  lemma RestMisleads(l: Link, c: Command)
    requires Unserved(l, c) && l.phase.Resting? && l.capture.recording == Wants(c)
    ensures Misled(l, c, [WriteStatus])
  {
    OneStep(l, WriteStatus);
  }

  function Executes(n: nat, links: bool): seq<Step> {
    seq(n, i => Execute(links))
  }

  /** What is left of the batch, and the flag the executed part leaves. */
  ghost predicate Reached(l: Link, end: Link, n: nat, c: Command, links: bool)
    requires l.phase.Running? && n <= |l.phase.left|
  {
    && Unserved(end, c) && end.phase == Running(l.phase.left[n..]) && end.file == l.file
    && end.capture.recording == Leaves(l.phase.left[..n], l.capture.recording, links)
  }

  lemma ReachedNext(l: Link, end: Link, n: nat, c: Command, links: bool)
    requires l.phase.Running? && n < |l.phase.left| && Reached(l, end, n, c, links)
    requires var x := l.phase.left[n]; !x.line.Quit? && (Acts(x) ==> x.id < c.id)
    ensures Possible(end, Execute(links)) && Reached(l, Next(end, Execute(links)), n + 1, c, links)
  {
    var left := l.phase.left;
    assert left[n..][0] == left[n] && left[n..][1..] == left[n + 1..];
    assert left[..n + 1][..n] == left[..n];
  }

  lemma {:induction false} ExecuteUpTo(l: Link, n: nat, c: Command, links: bool)
    requires Unserved(l, c) && l.phase.Running? && n <= |l.phase.left| && Older(l.phase.left[..n], c)
    ensures Runs(l, Executes(n, links)) && Reached(l, After(l, Executes(n, links)), n, c, links)
  {
    if n == 0 {
      assert l.phase.left[0..] == l.phase.left;
    } else {
      var x := l.phase.left[..n][n - 1];
      assert Older(l.phase.left[..n - 1], c) by {
        assert forall i :: 0 <= i < n - 1 ==> l.phase.left[..n - 1][i] == l.phase.left[..n][i];
      }
      ExecuteUpTo(l, n - 1, c, links);
      ReachedNext(l, After(l, Executes(n - 1, links)), n - 1, c, links);
      assert Executes(n, links) == Executes(n - 1, links) + [Execute(links)];
      Chain(l, Executes(n - 1, links), Execute(links));
    }
  }

  /** The child finishes a batch without `c` and comes to rest. */
  lemma Finishes(l: Link, c: Command, links: bool)
    requires Unserved(l, c) && l.phase.Running? && Older(l.phase.left, c)
    ensures var steps := Executes(|l.phase.left|, links) + [Execute(links)]; var end := After(l, steps);
      && Sits(steps) && Runs(l, steps) && Unserved(end, c) && end.phase == Resting && end.file == l.file
      && end.capture.recording == Leaves(l.phase.left, l.capture.recording, links)
  {
    var n := |l.phase.left|;
    assert l.phase.left[..n] == l.phase.left;
    ExecuteUpTo(l, n, c, links);
    var m := After(l, Executes(n, links));
    OneStep(m, Execute(links));
    RunsAppend(l, Executes(n, links), [Execute(links)]);
  }

  lemma BatchMisleads(l: Link, c: Command)
    requires Unserved(l, c) && l.phase.Running? && Older(l.phase.left, c)
    requires Leaves(l.phase.left, l.capture.recording, Wants(c)) == Wants(c)
    ensures exists steps :: Misled(l, c, steps)
  {
    var steps := Executes(|l.phase.left|, Wants(c)) + [Execute(Wants(c))];
    Finishes(l, c, Wants(c));
    RestMisleads(After(l, steps), c);
    MisledLater(l, c, steps, [WriteStatus]);
  }

  lemma ReadMisleads(l: Link, c: Command)
    requires Unserved(l, c) && l.phase.HasRead? && Older(l.phase.raw, c)
    requires l.capture.recording == Wants(c) || Leaves(l.phase.raw, !Wants(c), Wants(c)) == Wants(c)
    ensures exists steps :: Misled(l, c, steps)
  {
    if l.capture.recording == Wants(c) {
      OneStep(l, TruncateFails);
      RestMisleads(Next(l, TruncateFails), c);
      MisledLater(l, c, [TruncateFails], [WriteStatus]);
    } else {
      OneStep(l, Truncate);
      BatchMisleads(Next(l, Truncate), c);
      var steps :| Misled(Next(l, Truncate), c, steps);
      MisledLater(l, c, [Truncate], steps);
    }
  }

  /** An older record in the file, executed just before a record that then fails to
      link. */
  lemma FileMisleads(l: Link, c: Command, older: seq<Command>)
    requires Unserved(l, c) && c.line.Record? && l.phase.Resting? && !l.capture.recording
    requires l.file == older + [c] && Older(older, c) && Leaves(older, false, true)
    ensures exists steps :: Misled(l, c, steps)
  {
    var read := Next(l, Read);
    var m := Next(read, Truncate);
    OneStep(l, Read);
    OneStep(read, Truncate);
    var n := |older|;
    assert m.phase.left[..n] == older && m.phase.left[n..] == [c];
    ExecuteUpTo(m, n, c, true);
    var last := After(m, Executes(n, true));
    FailedLink(last, c);
    MisledLater(m, c, Executes(n, true), [Execute(false), Execute(false)] + [WriteStatus]);
    MisledLater(read, c, [Truncate], Executes(n, true) + ([Execute(false), Execute(false)] + [WriteStatus]));
    MisledLater(l, c, [Read], [Truncate] + (Executes(n, true) + ([Execute(false), Execute(false)] + [WriteStatus])));
  }

  lemma FailedLink(l: Link, c: Command)
    requires Unserved(l, c) && c.line.Record? && l.phase == Running([c]) && l.capture.recording
    ensures Misled(l, c, [Execute(false), Execute(false)] + [WriteStatus])
  {
    var once := Next(l, Execute(false));
    OneStep(l, Execute(false));
    OneStep(once, Execute(false));
    RunsAppend(l, [Execute(false)], [Execute(false)]);
    assert [Execute(false)] + [Execute(false)] == [Execute(false), Execute(false)];
    var end := Next(once, Execute(false));
    RestMisleads(end, c);
    MisledLater(l, c, [Execute(false), Execute(false)], [WriteStatus]);
  }

  /** The same from any phase that does not mislead by itself. */
  lemma FileMisleadsLater(l: Link, c: Command, older: seq<Command>)
    requires Unserved(l, c) && c.line.Record? && l.file == older + [c] && Older(older, c) && Leaves(older, false, true)
    requires l.phase.Running? ==> Older(l.phase.left, c) && !Leaves(l.phase.left, l.capture.recording, true)
    requires !l.phase.Running? ==> !l.capture.recording
    ensures exists steps :: Misled(l, c, steps)
  {
    match l.phase
    case Resting => FileMisleads(l, c, older);
    case HasRead(_) =>
      OneStep(l, TruncateFails);
      FileMisleads(Next(l, TruncateFails), c, older);
      var steps :| Misled(Next(l, TruncateFails), c, steps);
      MisledLater(l, c, [TruncateFails], steps);
    case Running(left) =>
      var first := Executes(|left|, true) + [Execute(true)];
      Finishes(l, c, true);
      FileMisleads(After(l, first), c, older);
      var steps :| Misled(After(l, first), c, steps);
      MisledLater(l, c, first, steps);
  }

  lemma UnreadyMisleads(l: Link, c: Command)
    requires Tidy(l) && l.parent == Settled(!Wants(c)) && (c.line.Record? || c.line.Stop?) && c.id == l.next
    requires !Ready(l, c)
    ensures !Honest(l, c)
  {
    var m, want := Next(l, Send(c)), Wants(c);
    if l.status == want {
      assert Misled(m, c, []);
    } else if l.phase.Resting? && l.capture.recording == want {
      RestMisleads(m, c);
    } else if l.phase.HasRead? && (l.capture.recording == want || Leaves(l.phase.raw, !want, want) == want) {
      assert forall i :: 0 <= i < |l.phase.raw| ==> l.phase.raw[i] == l.file[i] && l.file[i] in l.file;
      ReadMisleads(m, c);
      var steps :| Misled(m, c, steps);
    } else {
      assert l.phase.Running? ==> Older(l.phase.left, c) by {
        assert l.phase.Running? ==> forall i :: 0 <= i < |l.phase.left| ==> l.phase.left[i] in l.phase.left;
      }
      if l.phase.Running? && Leaves(l.phase.left, l.capture.recording, want) == want {
        BatchMisleads(m, c);
      } else {
        assert forall i :: 0 <= i < |l.file| ==> l.file[i] in l.file;
        FileMisleadsLater(m, c, l.file);
      }
      var steps :| Misled(m, c, steps);
    }
  }

  // -------------------------------------------------------------- over all runs

  lemma HonestIff(l: Link, steps: seq<Step>, c: Command)
    requires Fresh(l) && Runs(l, steps) && After(l, steps).parent == Settled(!Wants(c))
    requires (c.line.Record? || c.line.Stop?) && c.id == After(l, steps).next
    ensures Possible(After(l, steps), Send(c))
    ensures Honest(After(l, steps), c) <==> Ready(After(l, steps), c)
  {
    var at := After(l, steps);
    RunTidy(l, steps);
    if Ready(at, c) { ReadyIsHonest(at, c); } else { UnreadyMisleads(at, c); }
  }

  /** After any run, timeouts included: whatever happens while the session waits for
      a record it sends, an acknowledgement means that this record was executed, if
      and only if at the sending the status does not say recording and, while the
      child polls, neither the capture nor what the commands left behind can make of
      it does. */
  lemma RecordHonestIff(l: Link, steps: seq<Step>, dir: string)
    requires Fresh(l) && Runs(l, steps) && After(l, steps).parent == Settled(false)
    ensures var at := After(l, steps); var c := Command(at.next, Record(dir));
      && Possible(at, Send(c))
      && (Honest(at, c) <==>
            && !at.status
            && (at.capture.running ==>
                  && !Leaves(at.file, false, true)
                  && match at.phase
                     case Resting => !at.capture.recording
                     case HasRead(raw) => !at.capture.recording && !Leaves(raw, false, true)
                     case Running(left) => !Leaves(left, at.capture.recording, true)))
  {
    HonestIff(l, steps, Command(After(l, steps).next, Record(dir)));
  }

  lemma {:induction false} KeepsOn(s: seq<Command>, b: bool)
    ensures Leaves(s, b, false) <==> b && forall x :: x in s ==> !x.line.Stop? && !x.line.Quit?
  {
    if s != [] {
      KeepsOn(s[..|s| - 1], b);
      assert s == s[..|s| - 1] + [s[|s| - 1]];
    }
  }

  /** The same for a stop: if and only if the status says recording and, while the
      child polls, so does the capture, with no stop among what it has taken.  A stop
      still in the file does no harm: the new one is executed with it. */
  lemma StopHonestIff(l: Link, steps: seq<Step>)
    requires Fresh(l) && Runs(l, steps) && After(l, steps).parent == Settled(true)
    ensures var at := After(l, steps); var c := Command(at.next, Stop);
      && Possible(at, Send(c))
      && (Honest(at, c) <==>
            && at.status
            && (at.capture.running ==>
                  && at.capture.recording
                  && (at.phase.HasRead? ==> forall x :: x in at.phase.raw ==> !x.line.Stop?)
                  && (forall x :: x in Executing(at) ==> !x.line.Stop?)))
  {
    var at := After(l, steps);
    RunTidy(l, steps);
    HonestIff(l, steps, Command(at.next, Stop));
    if at.phase.HasRead? {
      KeepsOn(at.phase.raw, true);
      assert forall x :: x in at.phase.raw ==> x in at.file;
    }
    if at.phase.Running? { KeepsOn(at.phase.left, at.capture.recording); }
  }

  lemma {:induction false} CleanLeaves(s: seq<Command>)
    requires forall x :: x in s ==> !x.line.Record?
    ensures !Leaves(s, false, true)
  {
    if s != [] {
      assert s[|s| - 1] in s;
      CleanLeaves(s[..|s| - 1]);
    }
  }

  /** In particular where nothing says recording and no record is left over. */
  lemma CleanIsHonest(l: Link, steps: seq<Step>, dir: string)
    requires Fresh(l) && Runs(l, steps) && After(l, steps).parent == Settled(false)
    requires var at := After(l, steps);
      && !at.status && !at.capture.recording
      && forall x :: x in at.file || x in Executing(at) ==> !x.line.Record?
    ensures Honest(After(l, steps), Command(After(l, steps).next, Record(dir)))
  {
    var at := After(l, steps);
    RunTidy(l, steps);
    CleanLeaves(at.file);
    CleanLeaves(Executing(at));
    if at.phase.HasRead? { CleanLeaves(at.phase.raw); }
    RecordHonestIff(l, steps, dir);
  }

  /** A record given up on is still in the file: it can be taken for the next one,
      also when both name one directory. */
  lemma LateExecutionMisleads(l: Link, first: string, second: string)
    requires Fresh(l)
    ensures var steps := [Send(Command(l.next, Record(first))), TimeOut];
      && Runs(l, steps) && After(l, steps).parent == Settled(false)
      && !Honest(After(l, steps), Command(l.next + 1, Record(second)))
  {
    var a := Command(l.next, Record(first));
    var l1 := Next(l, Send(a));
    OneStep(l, Send(a));
    OneStep(l1, TimeOut);
    RunsAppend(l, [Send(a)], [TimeOut]);
    assert [Send(a)] + [TimeOut] == [Send(a), TimeOut];
    var at := Next(l1, TimeOut);
    assert at.file == [a] && [a][..0] == [] && Leaves([a], false, true);
    RecordHonestIff(l, [Send(a), TimeOut], second);
  }

  /** A record sent, executed and acknowledged. */
  function OneRecord(l: Link, dir: string): seq<Step> {
    [Send(Command(l.next, Record(dir))), Read, Truncate, Execute(true), Execute(true), WriteStatus, Acknowledge]
  }

  lemma RecordedOnce(l: Link, dir: string)
    requires Fresh(l)
    ensures Runs(l, OneRecord(l, dir))
    ensures After(l, OneRecord(l, dir)) ==
            l.(parent := Settled(true), status := true, done := l.next, next := l.next + 1,
               capture := l.capture.(recording := true, dir := dir))
  {
    var a := Command(l.next, Record(dir));
    assert Next(l, Send(a)).file == [a];
    var steps: seq<Step> := [];
    Chain(l, steps, Send(a));
    steps := steps + [Send(a)];
    Chain(l, steps, Read);
    steps := steps + [Read];
    Chain(l, steps, Truncate);
    steps := steps + [Truncate];
    Chain(l, steps, Execute(true));
    steps := steps + [Execute(true)];
    Chain(l, steps, Execute(true));
    steps := steps + [Execute(true)];
    Chain(l, steps, WriteStatus);
    steps := steps + [WriteStatus];
    Chain(l, steps, Acknowledge);
    assert steps + [Acknowledge] == OneRecord(l, dir);
  }

  /** A stop given up on leaves the status saying recording: the next record is
      acknowledged at the first look. */
  lemma StaleStatusMisleads(l: Link, dir: string)
    requires Fresh(l)
    ensures var steps := OneRecord(l, dir) + [Send(Command(l.next + 1, Stop)), TimeOut];
            var at, c := After(l, steps), Command(l.next + 2, Record(dir));
      Runs(l, steps) && at.parent == Settled(false) && Misled(Next(at, Send(c)), c, [])
  {
    RecordedOnce(l, dir);
    var m, stop := After(l, OneRecord(l, dir)), Command(l.next + 1, Stop);
    OneStep(m, Send(stop));
    OneStep(Next(m, Send(stop)), TimeOut);
    RunsAppend(m, [Send(stop)], [TimeOut]);
    assert [Send(stop)] + [TimeOut] == [Send(stop), TimeOut];
    RunsAppend(l, OneRecord(l, dir), [Send(stop), TimeOut]);
  }

  lemma Chain(l: Link, steps: seq<Step>, step: Step)
    requires Runs(l, steps) && Possible(After(l, steps), step)
    ensures Runs(l, steps + [step]) && After(l, steps + [step]) == Next(After(l, steps), step)
  {
    assert (steps + [step])[..|steps|] == steps;
  }
}
