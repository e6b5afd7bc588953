/** The monitor's session: write bodies posted on the server's threads, resets,
    PID-structure refreshes and publications by the poll loop, all on one snapshot
    under a lock.  Whatever their interleaving, the totals are sums since the last
    reset. */
module Sidecar {
  import opened Common
  import opened Etr290
  import opened Influx
  import opened InfluxBody
  import Text

  datatype Op<S> =
    | Post(parsed: Parsed, now: real)
    | Reset(now: real)
    | Refresh(structure: Option<S>)
    | Publish
    | Exit(now: real)

  /** The published file: a snapshot, or the report that the monitor is gone. */
  datatype Published<S> = Totals(snapshot: Snapshot<S>) | Gone(now: real)

  datatype Session<S> = Session(snapshot: Snapshot<S>, file: Option<Published<S>>)

  function Opened<S>(): Session<S> {
    Session(Snapshot(false, 0, None, 0, map[], None, None, None, None), None)
  }

  /** A body counts when it holds a counter row or a packet count. */
  predicate Accepted(parsed: Parsed) {
    parsed.counters != [] || parsed.packets.Some?
  }

  function Step<S>(s: Session<S>, op: Op<S>, interval: int): Session<S> {
    match op
    case Post(parsed, now) =>
      if Accepted(parsed) then s.(snapshot := Accumulated(s.snapshot, Rollup(parsed, interval, now))) else s
    case Reset(now) =>
      var snapshot := EmptySession(interval, now).(structure := s.snapshot.structure);
      Session(snapshot, Some(Totals(snapshot)))
    case Refresh(structure) => s.(snapshot := s.snapshot.(structure := structure.Or(s.snapshot.structure)))
    case Publish => if s.snapshot.available then s.(file := Some(Totals(s.snapshot))) else s
    case Exit(now) => s.(file := Some(Gone(now)))
  }

  function Run<S>(ops: seq<Op<S>>, interval: int): Session<S> {
    if ops == [] then Opened() else Step(Run(ops[..|ops| - 1], interval), ops[|ops| - 1], interval)
  }

  // ------------------------------------- what the totals should be, op by op

  /** The accepted intervals since the last reset, oldest first. */
  function Intervals<S>(ops: seq<Op<S>>): seq<Parsed> {
    if ops == [] then []
    else
      var before, op := Intervals(ops[..|ops| - 1]), ops[|ops| - 1];
      match op
      case Reset(_) => []
      case Post(parsed, _) => if Accepted(parsed) then before + [parsed] else before
      case _ => before
  }

  function Total(ps: seq<Parsed>, n: Counter): int {
    if ps == [] then 0 else Total(ps[..|ps| - 1], n) + Reported(ps[|ps| - 1].counters, n).value
  }

  function Errors(ps: seq<Parsed>): int {
    if ps == [] then 0 else Errors(ps[..|ps| - 1]) + ps[|ps| - 1].errors.GetOr(0)
  }

  function LastPackets(ps: seq<Parsed>): Option<int> {
    if ps == [] then None else ps[|ps| - 1].packets.Or(LastPackets(ps[..|ps| - 1]))
  }

  function LastBitrate(ps: seq<Parsed>): Option<int> {
    if ps == [] then None else ps[|ps| - 1].bitrate.Or(LastBitrate(ps[..|ps| - 1]))
  }

  /** The severity of a counter in the latest interval. */
  function LastSeverity(ps: seq<Parsed>, n: Counter): int {
    if ps == [] then Priority(n) else Reported(ps[|ps| - 1].counters, n).severity
  }

  /** The last structure ever read: a reset does not drop it. */
  function LastStructure<S>(ops: seq<Op<S>>): Option<S> {
    if ops == [] then None
    else if ops[|ops| - 1].Refresh? then ops[|ops| - 1].structure.Or(LastStructure(ops[..|ops| - 1]))
    else LastStructure(ops[..|ops| - 1])
  }

  predicate Started<S>(ops: seq<Op<S>>) {
    exists i :: 0 <= i < |ops| && (ops[i].Reset? || (ops[i].Post? && Accepted(ops[i].parsed)))
  }

  ghost predicate Sums<S>(s: Snapshot<S>, ps: seq<Parsed>) {
    && s.counters.Keys == ALL
    && (forall n :: n in ALL ==> s.counters[n] == Entry(Total(ps, n), LastSeverity(ps, n)))
    && s.worst == WorstOf(s.counters)
    && s.errors == Some(Errors(ps))
    && s.packets == LastPackets(ps)
    && s.bitrate == LastBitrate(ps)
  }

  lemma AccumulateAdds<S>(s: Snapshot<S>, ps: seq<Parsed>, parsed: Parsed, interval: int, now: real)
    requires Sums(s, ps) || (ps == [] && s.counters == map[] && s.packets.None? && s.bitrate.None?)
    ensures Sums(Accumulated(s, Rollup(parsed, interval, now)), ps + [parsed])
  {
    var all := ps + [parsed];
    assert all[..|ps|] == ps && all[|ps|] == parsed;
    assert TsSyncLoss in ALL;
    var snap: Snapshot<S> := Rollup(parsed, interval, now);
    var out := Accumulated(s, snap);
    forall n | n in ALL ensures out.counters[n] == Entry(Total(all, n), LastSeverity(all, n)) {
      assert snap.counters[n] == Reported(parsed.counters, n);
    }
  }

  /** Under any interleaving: counters and the error count are sums over the
      accepted intervals since the last reset, the packet count and the bitrate the
      last reported ones, and the structure the last one read. */
  lemma {:induction false} TotalsAreSums<S>(ops: seq<Op<S>>, interval: int)
    ensures var s := Run(ops, interval).snapshot;
      && s.structure == LastStructure(ops)
      && (s.available <==> Started(ops))
      && (if Started(ops) then Sums(s, Intervals(ops))
          else Intervals(ops) == [] && s.counters == map[] && s.packets.None? && s.bitrate.None?)
  {
    if ops != [] {
      var k := |ops| - 1;
      var before, op := ops[..k], ops[k];
      TotalsAreSums(before, interval);
      StartedSnoc(before, op);
      assert ops == before + [op];
      var s := Run(before, interval).snapshot;
      match op
      case Post(parsed, now) =>
        if Accepted(parsed) {
          AccumulateAdds(s, Intervals(before), parsed, interval, now);
        }
      case Reset(now) =>
      case Refresh(structure) =>
      case _ =>
    }
  }

  lemma StartedSnoc<S>(ops: seq<Op<S>>, op: Op<S>)
    ensures Started(ops + [op]) <==> Started(ops) || op.Reset? || (op.Post? && Accepted(op.parsed))
  {
    var all := ops + [op];
    assert all[|ops|] == op;
    if Started(ops) {
      var i :| 0 <= i < |ops| && (ops[i].Reset? || (ops[i].Post? && Accepted(ops[i].parsed)));
      assert all[i] == ops[i];
    }
    if Started(all) {
      var i :| 0 <= i < |all| && (all[i].Reset? || (all[i].Post? && Accepted(all[i].parsed)));
      assert i < |ops| ==> all[i] == ops[i];
    }
  }

  // -------------------------------------------------------------- the worst

  /** Every row has its counter's own priority and counts up. */
  ghost predicate Canonical(p: Parsed) {
    forall i :: 0 <= i < |p.counters| ==>
      p.counters[i].severity == Priority(p.counters[i].name) && p.counters[i].value >= 0
  }

  ghost predicate AllCanonical(ps: seq<Parsed>) {
    forall i :: 0 <= i < |ps| ==> Canonical(ps[i])
  }

  lemma {:induction false} ReportedCanonical(rows: seq<Row>, n: Counter)
    requires forall i :: 0 <= i < |rows| ==> rows[i].severity == Priority(rows[i].name) && rows[i].value >= 0
    ensures Reported(rows, n).severity == Priority(n) && Reported(rows, n).value >= 0
  {
    if rows != [] {
      ReportedCanonical(rows[..|rows| - 1], n);
    }
  }

  /** How bad a severity is. */
  function Badness(severity: int): int {
    if severity == 1 then 2 else if severity == 2 then 1 else 0
  }

  lemma {:induction false} TotalGrows(ps: seq<Parsed>, m: nat, n: Counter)
    requires m <= |ps| && AllCanonical(ps)
    ensures Total(ps[..m], n) <= Total(ps, n)
  {
    if m == |ps| {
      assert ps[..m] == ps;
    } else {
      var k := |ps| - 1;
      assert ps[..k][..m] == ps[..m];
      TotalGrows(ps[..k], m, n);
      ReportedCanonical(ps[k].counters, n);
    }
  }

  lemma CanonicalSeverity(ps: seq<Parsed>, n: Counter)
    requires AllCanonical(ps)
    ensures LastSeverity(ps, n) == Priority(n)
  {
    if ps != [] {
      ReportedCanonical(ps[|ps| - 1].counters, n);
    }
  }

  lemma WorstGrows(a: Counters, b: Counters)
    requires a.Keys == b.Keys
    requires forall n :: n in a ==> a[n].value <= b[n].value && a[n].severity == b[n].severity
    ensures Badness(WorstOf(a)) <= Badness(WorstOf(b))
  {
  }

  /** The intervals of a run go on where those of its beginning ended, up to a reset. */
  lemma {:induction false} IntervalsGrow<S>(ops: seq<Op<S>>, m: nat)
    requires m <= |ops| && forall i :: m <= i < |ops| ==> !ops[i].Reset?
    ensures Intervals(ops[..m]) <= Intervals(ops)
  {
    if m == |ops| {
      assert ops[..m] == ops;
    } else {
      var k := |ops| - 1;
      assert ops[..k][..m] == ops[..m];
      IntervalsGrow(ops[..k], m);
    }
  }

  /** With the standard's severities and counts that do not go down, the published
      severity never improves before a reset. */
  lemma WorstNeverImproves<S>(ops: seq<Op<S>>, m: nat, interval: int)
    requires m <= |ops| && (forall i :: m <= i < |ops| ==> !ops[i].Reset?)
    requires AllCanonical(Intervals(ops))
    ensures Badness(Run(ops[..m], interval).snapshot.worst) <= Badness(Run(ops, interval).snapshot.worst)
  {
    var before, ps := ops[..m], Intervals(ops);
    TotalsAreSums(before, interval);
    TotalsAreSums(ops, interval);
    IntervalsGrow(ops, m);
    var some := Intervals(before);
    assert some == ps[..|some|];
    if Started(before) {
      var i :| 0 <= i < |before| && (before[i].Reset? || (before[i].Post? && Accepted(before[i].parsed)));
      assert ops[i] == before[i];
      forall n | n in ALL ensures Total(some, n) <= Total(ps, n) && LastSeverity(some, n) == LastSeverity(ps, n) {
        TotalGrows(ps, |some|, n);
        CanonicalSeverity(ps, n);
        CanonicalSeverity(some, n);
      }
      WorstGrows(Run(before, interval).snapshot.counters, Run(ops, interval).snapshot.counters);
    } else {
      NotStarted(before, interval);
    }
  }

  lemma {:induction false} NotStarted<S>(ops: seq<Op<S>>, interval: int)
    requires !Started(ops)
    ensures Run(ops, interval).snapshot.worst == 0
  {
    if ops != [] {
      var k := |ops| - 1;
      assert ops == ops[..k] + [ops[k]];
      StartedSnoc(ops[..k], ops[k]);
      NotStarted(ops[..k], interval);
    }
  }

  // ------------------------------------------------------ order independence

  lemma {:induction false} TotalConcat(a: seq<Parsed>, b: seq<Parsed>, n: Counter)
    ensures Total(a + b, n) == Total(a, n) + Total(b, n) && Errors(a + b) == Errors(a) + Errors(b)
  {
    if b == [] {
      assert a + b == a;
    } else {
      var k := |b| - 1;
      assert (a + b)[..|a| + k] == a + b[..k] && (a + b)[|a| + k] == b[k];
      TotalConcat(a, b[..k], n);
    }
  }

  function Removing<T>(s: seq<T>, i: nat): seq<T>
    requires i < |s|
  {
    s[..i] + s[i + 1..]
  }

  lemma RemovingBag<T>(s: seq<T>, i: nat)
    requires i < |s|
    ensures multiset(Removing(s, i)) == multiset(s) - multiset{s[i]}
  {
    assert s == s[..i] + [s[i]] + s[i + 1..];
    assert multiset(s) == multiset(Removing(s, i)) + multiset{s[i]};
  }

  lemma TotalRemoving(s: seq<Parsed>, i: nat, n: Counter)
    requires i < |s|
    ensures Total(s, n) == Total(Removing(s, i), n) + Reported(s[i].counters, n).value
    ensures Errors(s) == Errors(Removing(s, i)) + s[i].errors.GetOr(0)
  {
    TotalConcat(s[..i], s[i + 1..], n);
    TotalConcat(s[..i + 1], s[i + 1..], n);
    assert s[..i + 1][..i] == s[..i];
    assert s == s[..i + 1] + s[i + 1..];
  }

  lemma {:induction false} TotalPermuted(a: seq<Parsed>, b: seq<Parsed>, n: Counter)
    requires multiset(a) == multiset(b)
    ensures Total(a, n) == Total(b, n) && Errors(a) == Errors(b)
    decreases |a|
  {
    if a == [] {
      assert |multiset(b)| == 0;
    } else {
      assert a[0] in multiset(b);
      var i :| 0 <= i < |b| && b[i] == a[0];
      RemovingBag(a, 0);
      RemovingBag(b, i);
      TotalPermuted(Removing(a, 0), Removing(b, i), n);
      TotalRemoving(a, 0, n);
      TotalRemoving(b, i, n);
    }
  }

  /** Every interval reports the same severity for a counter, be it in a row or, for
      a counter it has no row of, the standard's. */
  ghost predicate OneSeverity(ps: seq<Parsed>) {
    forall i, j, n :: 0 <= i < |ps| && 0 <= j < |ps| ==>
      Reported(ps[i].counters, n).severity == Reported(ps[j].counters, n).severity
  }

  lemma SeverityPermuted(a: seq<Parsed>, b: seq<Parsed>, n: Counter)
    requires multiset(a) == multiset(b) && OneSeverity(a)
    ensures LastSeverity(a, n) == LastSeverity(b, n)
  {
    assert |multiset(a)| == |a| && |multiset(b)| == |b|;
    if b != [] {
      assert b[|b| - 1] in multiset(a);
      var i :| 0 <= i < |a| && a[i] == b[|b| - 1];
    }
  }

  /** Then the order does not matter to the counters, the error count or the worst
      severity. */
  lemma OneSeverityAnyOrder<S>(a: seq<Op<S>>, b: seq<Op<S>>, interval: int)
    requires Started(a) && Started(b) && multiset(Intervals(a)) == multiset(Intervals(b))
    requires OneSeverity(Intervals(a))
    ensures var s, t := Run(a, interval).snapshot, Run(b, interval).snapshot;
      s.counters == t.counters && s.errors == t.errors && s.worst == t.worst
  {
    TotalsAreSums(a, interval);
    TotalsAreSums(b, interval);
    var s, t := Run(a, interval).snapshot, Run(b, interval).snapshot;
    forall n | n in ALL ensures s.counters[n] == t.counters[n] {
      TotalPermuted(Intervals(a), Intervals(b), n);
      SeverityPermuted(Intervals(a), Intervals(b), n);
    }
    TotalPermuted(Intervals(a), Intervals(b), TsSyncLoss);
    assert s.counters == t.counters;
  }

  /** In particular with the standard's severities. */
  lemma OrderDoesNotMatter<S>(a: seq<Op<S>>, b: seq<Op<S>>, interval: int)
    requires Started(a) && Started(b) && multiset(Intervals(a)) == multiset(Intervals(b))
    requires AllCanonical(Intervals(a))
    ensures var s, t := Run(a, interval).snapshot, Run(b, interval).snapshot;
      s.counters == t.counters && s.errors == t.errors && s.worst == t.worst
  {
    var ps := Intervals(a);
    forall i, n | 0 <= i < |ps| ensures Reported(ps[i].counters, n).severity == Priority(n) {
      ReportedCanonical(ps[i].counters, n);
    }
    OneSeverityAnyOrder(a, b, interval);
  }

  /** Whatever the order in which the session got these intervals, with whatever
      refreshes, resets before them and publications, it has the same counters. */
  ghost predicate OrderFree<S(!new)>(a: seq<Op<S>>, interval: int) {
    forall b: seq<Op<S>> :: Started(b) && multiset(Intervals(b)) == multiset(Intervals(a)) ==>
      Run(b, interval).snapshot.counters == Run(a, interval).snapshot.counters
  }

  function Posts<S>(ps: seq<Parsed>): seq<Op<S>> {
    seq(|ps|, i requires 0 <= i < |ps| => Post(ps[i], 0.0))
  }

  lemma {:induction false} PostsIntervals<S>(ps: seq<Parsed>)
    requires forall i :: 0 <= i < |ps| ==> Accepted(ps[i])
    ensures Intervals<S>(Posts(ps)) == ps
  {
    if ps != [] {
      var k := |ps| - 1;
      PostsIntervals<S>(ps[..k]);
      assert Posts<S>(ps)[..k] == Posts<S>(ps[..k]);
      assert ps == ps[..k] + [ps[k]];
    }
  }

  lemma {:induction false} IntervalsAccepted<S>(ops: seq<Op<S>>)
    ensures forall i :: 0 <= i < |Intervals(ops)| ==> Accepted(Intervals(ops)[i])
  {
    if ops != [] {
      IntervalsAccepted(ops[..|ops| - 1]);
    }
  }

  /** The interval `k` posted last instead. */
  lemma LastShows<S(!new)>(a: seq<Op<S>>, k: nat, n: Counter, interval: int)
    requires Started(a) && k < |Intervals(a)|
    requires Reported(Intervals(a)[k].counters, n).severity != LastSeverity(Intervals(a), n)
    ensures !OrderFree(a, interval)
  {
    var ps := Intervals(a);
    var qs := Removing(ps, k) + [ps[k]];
    IntervalsAccepted(a);
    RemovingBag(ps, k);
    assert forall i :: 0 <= i < |qs| ==> qs[i] in ps;
    PostsIntervals<S>(qs);
    var b: seq<Op<S>> := Posts(qs);
    assert b[|qs| - 1].Post? && Accepted(b[|qs| - 1].parsed);
    assert multiset(Intervals(b)) == multiset(ps);
    TotalsAreSums(a, interval);
    TotalsAreSums(b, interval);
    assert n in ALL;
    assert Run(b, interval).snapshot.counters[n].severity != Run(a, interval).snapshot.counters[n].severity;
  }

  /** Exactly when the order of the intervals does not show in the counters. */
  lemma OrderFreeIff<S(!new)>(a: seq<Op<S>>, interval: int)
    requires Started(a)
    ensures OrderFree(a, interval) <==> OneSeverity(Intervals(a))
  {
    var ps := Intervals(a);
    if OneSeverity(ps) {
      forall b: seq<Op<S>> | Started(b) && multiset(Intervals(b)) == multiset(ps)
        ensures Run(b, interval).snapshot.counters == Run(a, interval).snapshot.counters
      {
        OneSeverityAnyOrder(a, b, interval);
      }
    } else {
      var i, j, n :| 0 <= i < |ps| && 0 <= j < |ps|
        && Reported(ps[i].counters, n).severity != Reported(ps[j].counters, n).severity;
      if Reported(ps[i].counters, n).severity != LastSeverity(ps, n) {
        LastShows(a, i, n, interval);
      } else {
        LastShows(a, j, n, interval);
      }
    }
  }

  // ------------------------------------------------------------- publication

  /** What readers see is always the totals of some moment of the session, or the
      report of an exit. */
  lemma {:induction false} PublishedIsASession<S>(ops: seq<Op<S>>, interval: int)
    requires Run(ops, interval).file.Some?
    ensures exists m: nat :: m <= |ops| && PublishedAt(ops, interval, m)
  {
    if ops != [] {
      var k := |ops| - 1;
      var before := ops[..k];
      if Run(ops, interval).file == Run(before, interval).file {
        PublishedIsASession(before, interval);
        var m: nat :| m <= k && PublishedAt(before, interval, m);
        assert before[..m] == ops[..m] && (m > 0 ==> before[m - 1] == ops[m - 1]);
        assert PublishedAt(ops, interval, m);
      } else {
        assert ops[..|ops|] == ops;
        TotalsAreSums(ops, interval);
        assert PublishedAt(ops, interval, |ops|);
      }
    }
  }

  /** The file is what the first `m` operations left. */
  ghost predicate PublishedAt<S>(ops: seq<Op<S>>, interval: int, m: nat)
    requires m <= |ops|
  {
    var s := Run(ops[..m], interval).snapshot;
    if m > 0 && ops[m - 1].Exit? then Run(ops, interval).file == Some(Gone(ops[m - 1].now))
    else
      && Run(ops, interval).file == Some(Totals(s))
      && s.available && Sums(s, Intervals(ops[..m])) && s.structure == LastStructure(ops[..m])
  }

  // ---------------------------------------------------------- the two threads

  /** `length` is absent when the header is not an integer. */
  datatype Request = Request(path: string, length: Option<int>, body: string)

  datatype Answer = NotFound | BadRequest | TooLarge | NoContent | Failed

  const WRITE := "/api/v2/write"
  const MAX_WRITE_BYTES := 1_048_576

  predicate Writes(path: string) {
    path[..Text.Find(path, '?')] == WRITE
  }

  function AnswerOf(r: Request, nums: Numbers): Answer {
    if !Writes(r.path) then NotFound
    else if r.length.None? then BadRequest
    else if r.length.value < 0 || r.length.value > MAX_WRITE_BYTES then TooLarge
    else if ParseBody(r.body, nums).Raised? then Failed
    else NoContent
  }

  class Monitor<S> {
    const interval: int
    var snapshot: Snapshot<S>
    var file: Option<Published<S>>

    function View(): Session<S>
      reads this
    {
      Session(snapshot, file)
    }

    constructor (interval: int)
      ensures this.interval == interval && View() == Opened()
    {
      this.interval := interval;
      var session := Opened();
      snapshot, file := session.snapshot, session.file;
    }

    /** `do_POST`: only an answered write changes the session. */
    method DoPost(r: Request, nums: Numbers, now: real) returns (answer: Answer)
      modifies this`snapshot
      ensures answer == AnswerOf(r, nums)
      ensures View() == if answer.NoContent? then Step(old(View()), Post(ParseBody(r.body, nums).parsed, now), interval)
                        else old(View())
    {
      if !Writes(r.path) {
        return NotFound;
      }
      if r.length.None? {
        return BadRequest;
      }
      if r.length.value < 0 || r.length.value > MAX_WRITE_BYTES {
        return TooLarge;
      }
      var body := ParseInfluxBody(r.body, nums);
      if body.Raised? {
        return Failed;
      }
      Accept(body.parsed, now);
      return NoContent;
    }

    method Accept(parsed: Parsed, now: real)
      modifies this`snapshot
      ensures View() == Step(old(View()), Post(parsed, now), interval)
    {
      if parsed.counters != [] || parsed.packets.Some? {
        var snap: Snapshot<S> := RollupSnapshot(parsed, interval, now);
        snapshot := AccumulateSnapshot(snapshot, snap);
      }
    }

    /** The reset of the poll loop: new totals, the structure kept, published. */
    method ResetTotals(now: real)
      modifies this
      ensures View() == Step(old(View()), Reset(now), interval)
    {
      var structure := snapshot.structure;
      snapshot := EmptySession(interval, now);
      if structure.Some? {
        snapshot := snapshot.(structure := structure);
      }
      file := Some(Totals(snapshot));
    }

    /** One turn of the poll loop: the report that the monitor is gone, which ends
        it, or a reset if asked for, the structure, publication. */
    method Poll(exited: bool, reset: bool, structure: Option<S>, now: real) returns (again: bool)
      modifies this
      ensures again == !exited
      ensures var s0 := old(View());
              var s1 := if reset then Step(s0, Reset(now), interval) else s0;
        View() == if exited then Step(s0, Exit(now), interval)
                  else Step(Step(s1, Refresh(structure), interval), Publish, interval)
    {
      if exited {
        file := Some(Gone(now));
        return false;
      }
      if reset {
        ResetTotals(now);
      }
      if structure.Some? {
        snapshot := snapshot.(structure := structure);
      }
      if snapshot.available {
        file := Some(Totals(snapshot));
      }
      again := true;
    }
  }
}
