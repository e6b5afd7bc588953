/** ETR 290 counters (ETSI TR 101 290, sections 5.2.1 and 5.2.2): one interval's
    rows rolled up, and intervals added into the session totals. */
module Etr290 {

  import opened Common

  datatype Counter =
    | TsSyncLoss | SyncByteError | PatError | PatError2
    | ContinuityCountError | PmtError | PmtError2 | PidError
    | PcrError | PcrRepetitionError | PcrDiscontinuityIndicatorError
    | TransportError | CrcError | CrcError2 | PtsError | CatError

  const ALL: set<Counter> := set n: Counter | true

  predicate PriorityOne(n: Counter) {
    n.TsSyncLoss? || n.SyncByteError? || n.PatError? || n.PatError2?
    || n.ContinuityCountError? || n.PmtError? || n.PmtError2? || n.PidError?
  }

  /** The priority the standard gives a counter. */
  function Priority(n: Counter): int { if PriorityOne(n) then 1 else 2 }

  datatype Row = Row(name: Counter, severity: int, value: int)

  datatype Parsed = Parsed(counters: seq<Row>, bitrate: Option<int>, packets: Option<int>, errors: Option<int>)

  datatype Entry = Entry(value: int, severity: int)

  type Counters = map<Counter, Entry>

  /** `interval` 0 stands for a missing one, empty `counters` for missing ones. */
  datatype Snapshot<S> = Snapshot(
    available: bool,
    interval: int,
    updated: Option<real>,
    worst: int,
    counters: Counters,
    errors: Option<int>,
    packets: Option<int>,
    bitrate: Option<int>,
    structure: Option<S>)

  // ----------------------------------------------------------- the worst one

  predicate Alarmed(counters: Counters, severity: int) {
    exists n :: n in counters && counters[n].value > 0 && counters[n].severity == severity
  }

  function WorstOf(counters: Counters): int {
    if Alarmed(counters, 1) then 1 else if Alarmed(counters, 2) then 2 else 0
  }

  /** The loop over the entries: whatever their order it finds the worst. */
  method Worst(counters: Counters) returns (worst: int)
    ensures worst == WorstOf(counters)
  {
    worst := 0;
    var left := counters.Keys;
    while left != {}
      invariant left <= counters.Keys
      invariant worst == 0 || worst == 1 || worst == 2
      invariant worst == 1 ==> Alarmed(counters, 1)
      invariant worst == 2 ==> Alarmed(counters, 2)
      invariant forall n :: n in counters && n !in left && counters[n].value > 0 ==>
                  && (counters[n].severity == 1 ==> worst == 1)
                  && (counters[n].severity == 2 ==> worst != 0)
      decreases left
    {
      var n :| n in left;
      left := left - {n};
      var entry := counters[n];
      if entry.value > 0 {
        if entry.severity == 1 {
          worst := 1;
        } else if entry.severity == 2 && worst != 1 {
          worst := 2;
        }
      }
    }
  }

  // ---------------------------------------------------------------- roll-up

  /** The last row of a counter, zero at the standard's priority without one. */
  function Reported(rows: seq<Row>, n: Counter): Entry {
    if rows == [] then Entry(0, Priority(n))
    else
      var last := rows[|rows| - 1];
      if last.name == n then Entry(last.value, last.severity) else Reported(rows[..|rows| - 1], n)
  }

  function RolledUp(rows: seq<Row>): Counters {
    map n | n in ALL :: Reported(rows, n)
  }

  function Rollup<S>(parsed: Parsed, interval: int, now: real): Snapshot<S> {
    var counters := RolledUp(parsed.counters);
    Snapshot(true, interval, Some(now), WorstOf(counters), counters,
             parsed.errors, parsed.packets, parsed.bitrate, None)
  }

  function Filled(counters: Counters): Counters {
    map n | n in ALL :: if n in counters then counters[n] else Entry(0, Priority(n))
  }

  /** The loop that adds the counters nothing was said about. */
  method ZeroFill(counters: Counters) returns (filled: Counters)
    ensures filled == Filled(counters)
  {
    filled := counters;
    var left := ALL;
    while left != {}
      invariant left <= ALL
      invariant forall n :: n in counters ==> n in filled && filled[n] == counters[n]
      invariant forall n :: n in filled && n !in counters ==> filled[n] == Entry(0, Priority(n))
      invariant forall n :: n !in left ==> n in filled
      decreases left
    {
      var n :| n in left;
      left := left - {n};
      if n !in filled {
        filled := filled[n := Entry(0, Priority(n))];
      }
    }
  }

  /** `rollup_etr290_snapshot`. */
  method RollupSnapshot<S>(parsed: Parsed, interval: int, now: real) returns (snap: Snapshot<S>)
    ensures snap == Rollup(parsed, interval, now)
  {
    var counters: Counters := map[];
    for i := 0 to |parsed.counters|
      invariant forall n :: Reported(parsed.counters[..i], n) ==
                            if n in counters then counters[n] else Entry(0, Priority(n))
    {
      var row := parsed.counters[i];
      assert parsed.counters[..i + 1][..i] == parsed.counters[..i];
      counters := counters[row.name := Entry(row.value, row.severity)];
    }
    assert parsed.counters[..|parsed.counters|] == parsed.counters;
    counters := ZeroFill(counters);
    assert counters == RolledUp(parsed.counters);
    var worst := Worst(counters);
    snap := Snapshot(true, interval, Some(now), worst, counters, parsed.errors, parsed.packets, parsed.bitrate, None);
  }

  // ------------------------------------------------------------- accumulation

  /** `empty_etr290_session`. */
  function EmptySession<S>(interval: int, now: real): Snapshot<S> {
    Snapshot(true, interval, Some(now), 0, Filled(map[]), Some(0), None, None, None)
  }

  function IntervalOf(snap: int, session: int): int {
    if snap != 0 then snap else if session != 0 then session else 2
  }

  /** One counter's entry: values add up, the severity is the interval's. */
  function Sum(was: Counters, add: Counters, n: Counter): Entry {
    var prev := if n in was then was[n] else Entry(0, if n in add then add[n].severity else Priority(n));
    if n in add then Entry(prev.value + add[n].value, add[n].severity) else prev
  }

  function Added(was: Counters, add: Counters): Counters {
    map n | n in ALL :: Sum(was, add, n)
  }

  /** The totals a session starts an addition with: none yet, or its own. */
  function BaseCounters<S>(session: Snapshot<S>): Counters {
    if session.counters == map[] then Filled(map[]) else session.counters
  }

  function BaseErrors<S>(session: Snapshot<S>): int {
    if session.counters == map[] then 0 else session.errors.GetOr(0)
  }

  function Accumulated<S>(session: Snapshot<S>, snap: Snapshot<S>): Snapshot<S> {
    var counters := Added(BaseCounters(session), snap.counters);
    Snapshot(true, IntervalOf(snap.interval, session.interval), snap.updated, WorstOf(counters), counters,
             Some(BaseErrors(session) + snap.errors.GetOr(0)),
             snap.packets.Or(session.packets), snap.bitrate.Or(session.bitrate), snap.structure.Or(session.structure))
  }

  /** The loop over the interval's counters. */
  method AddCounters(was: Counters, add: Counters) returns (counters: Counters)
    ensures counters == Added(was, add)
  {
    counters := was;
    var left := add.Keys;
    while left != {}
      invariant left <= add.Keys
      invariant forall n :: n in counters <==> n in was || (n in add && n !in left)
      invariant forall n :: n in counters ==> counters[n] == if n in left then was[n] else Sum(was, add, n)
      decreases left
    {
      var n :| n in left;
      left := left - {n};
      var prev := if n in counters then counters[n] else Entry(0, add[n].severity);
      counters := counters[n := Entry(prev.value + add[n].value, add[n].severity)];
    }
    counters := ZeroFill(counters);
  }

  /** `accumulate_etr290_snapshot`. */
  method AccumulateSnapshot<S>(session: Snapshot<S>, snap: Snapshot<S>) returns (out: Snapshot<S>)
    ensures out == Accumulated(session, snap)
  {
    var interval := IntervalOf(snap.interval, session.interval);
    var base: Counters;
    var errors: int;
    if session.counters == map[] {
      base := ZeroFill(map[]);
      errors := 0;
    } else {
      base, errors := session.counters, session.errors.GetOr(0);
    }
    var counters := AddCounters(base, snap.counters);
    var worst := Worst(counters);
    out := Snapshot(true, interval, snap.updated, worst, counters, Some(errors + snap.errors.GetOr(0)), None, None, None);
    if snap.packets.Some? {
      out := out.(packets := snap.packets);
    } else if session.packets.Some? {
      out := out.(packets := session.packets);
    }
    if snap.bitrate.Some? {
      out := out.(bitrate := snap.bitrate);
    } else if session.bitrate.Some? {
      out := out.(bitrate := session.bitrate);
    }
    out := out.(structure := if snap.structure.Some? then snap.structure else session.structure);
  }
}
