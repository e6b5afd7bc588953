/** The SRT child's receive rate: a window of buffers that closes after a second
    and restarts after a gap.  Times are seconds on the monotonic clock. */
module RateWindow {

  const IDLE_SEC := 2.0

  datatype Buffer = Buffer(at: real, size: nat)

  /** `rate_window`, `last_buf_at` and `bytes_total`. */
  datatype Meter = Meter(since: real, bytes: nat, mbps: real, last: real, total: nat)

  /** A closed window: buffers `from` to `to`, exclusive. */
  datatype Closed = Closed(from: nat, to: nat, since: real, closed: real, mbps: real)

  function Started(start: real): Meter {
    Meter(start, 0, 0.0, 0.0, 0)
  }

  function Restarted(m: Meter, now: real): Meter {
    if now - m.last > IDLE_SEC then m.(since := now, bytes := 0) else m
  }

  function Rate(bytes: nat, elapsed: real): real
    requires elapsed > 0.0
  {
    (bytes * 8) as real / elapsed / 1000000.0
  }

  function OnBuffer(m: Meter, b: Buffer): Meter {
    var w := Restarted(m, b.at);
    var elapsed, bytes := b.at - w.since, w.bytes + b.size;
    var received := w.(last := b.at, total := w.total + b.size);
    if elapsed >= 1.0 then received.(mbps := Rate(bytes, elapsed), since := b.at, bytes := 0)
    else received.(bytes := bytes)
  }

  /** What a run of buffers leaves: the meter, the index of the first buffer of the
      current window, the windows closed and the bytes of the windows given up. */
  datatype Trace = Trace(meter: Meter, first: nat, log: seq<Closed>, discarded: nat)

  function Observe(t: Trace, b: Buffer, i: nat): Trace {
    var w := Restarted(t.meter, b.at);
    var first := if b.at - t.meter.last > IDLE_SEC then i else t.first;
    var discarded := if b.at - t.meter.last > IDLE_SEC then t.discarded + t.meter.bytes else t.discarded;
    var m := OnBuffer(t.meter, b);
    if b.at - w.since >= 1.0
    then Trace(m, i + 1, t.log + [Closed(first, i + 1, w.since, b.at, m.mbps)], discarded)
    else Trace(m, first, t.log, discarded)
  }

  function Run(start: real, buffers: seq<Buffer>): Trace {
    if buffers == [] then Trace(Started(start), 0, [], 0)
    else Observe(Run(start, buffers[..|buffers| - 1]), buffers[|buffers| - 1], |buffers| - 1)
  }

  /** Bytes of the buffers `from` to `to`, exclusive. */
  function Bytes(buffers: seq<Buffer>, from: nat, to: nat): nat
    requires from <= to <= |buffers|
  {
    if from == to then 0 else Bytes(buffers, from, to - 1) + buffers[to - 1].size
  }

  ghost predicate Clocked(start: real, buffers: seq<Buffer>) {
    && 0.0 <= start
    && (forall i :: 0 <= i < |buffers| ==> start <= buffers[i].at)
    && (forall i, j :: 0 <= i < j < |buffers| ==> buffers[i].at <= buffers[j].at)
  }

  /** The buffers `from` to `to` follow the window's opening and each other without
      a gap of more than two seconds. */
  ghost predicate NoGap(buffers: seq<Buffer>, from: nat, to: nat, since: real)
    requires from <= to <= |buffers|
  {
    from < to ==>
      && NoGap(buffers, from, to - 1, since)
      && 0.0 <= buffers[to - 1].at - (if from == to - 1 then since else buffers[to - 2].at) <= IDLE_SEC
  }

  /** A published rate is the bytes of one window over its time. */
  ghost predicate Exact(buffers: seq<Buffer>, c: Closed) {
    && c.from < c.to <= |buffers|
    && c.closed == buffers[c.to - 1].at
    && 1.0 <= c.closed - c.since < 3.0
    && c.mbps == Rate(Bytes(buffers, c.from, c.to), c.closed - c.since)
    && NoGap(buffers, c.from, c.to, c.since)
  }

  predicate InRange(buffers: seq<Buffer>, log: seq<Closed>) {
    forall i :: 0 <= i < |log| ==> log[i].from <= log[i].to <= |buffers|
  }

  function LogBytes(buffers: seq<Buffer>, log: seq<Closed>): nat
    requires InRange(buffers, log)
  {
    if log == [] then 0
    else LogBytes(buffers, log[..|log| - 1]) + Bytes(buffers, log[|log| - 1].from, log[|log| - 1].to)
  }

  /** Exact windows that follow one another, the last one's rate on show. */
  ghost predicate LoggedUpTo(buffers: seq<Buffer>, log: seq<Closed>, first: nat, mbps: real) {
    && (forall i :: 0 <= i < |log| ==> Exact(buffers, log[i]) && log[i].to <= first)
    && (forall i, j :: 0 <= i < j < |log| ==> log[i].to <= log[j].from)
    && mbps == (if log == [] then 0.0 else log[|log| - 1].mbps)
  }

  ghost predicate Logged(buffers: seq<Buffer>, t: Trace) {
    LoggedUpTo(buffers, t.log, t.first, t.meter.mbps)
  }

  /** The current window: bytes, gaps, and less than a second of it. */
  ghost predicate Open(start: real, buffers: seq<Buffer>, t: Trace) {
    && t.first <= |buffers|
    && t.meter.bytes == Bytes(buffers, t.first, |buffers|)
    && NoGap(buffers, t.first, |buffers|, t.meter.since)
    && (if buffers == [] then t.meter.last == 0.0 && t.meter.since == start
        else t.meter.last == buffers[|buffers| - 1].at && 0.0 <= t.meter.last - t.meter.since < 1.0
             && (t.first == |buffers| ==> t.meter.since == t.meter.last))
  }

  lemma {:induction false} BytesPrefix(buffers: seq<Buffer>, last: Buffer, from: nat, to: nat)
    requires from <= to <= |buffers|
    ensures Bytes(buffers + [last], from, to) == Bytes(buffers, from, to)
  {
    if from < to {
      BytesPrefix(buffers, last, from, to - 1);
    }
  }

  lemma {:induction false} NoGapPrefix(buffers: seq<Buffer>, last: Buffer, from: nat, to: nat, since: real)
    requires from <= to <= |buffers|
    ensures NoGap(buffers + [last], from, to, since) == NoGap(buffers, from, to, since)
  {
    if from < to {
      NoGapPrefix(buffers, last, from, to - 1, since);
    }
  }

  lemma {:induction false} LogPrefix(buffers: seq<Buffer>, last: Buffer, log: seq<Closed>)
    requires InRange(buffers, log)
    ensures LogBytes(buffers + [last], log) == LogBytes(buffers, log)
  {
    if log != [] {
      LogPrefix(buffers, last, log[..|log| - 1]);
      BytesPrefix(buffers, last, log[|log| - 1].from, log[|log| - 1].to);
    }
  }

  lemma ExactPrefix(buffers: seq<Buffer>, last: Buffer, c: Closed)
    requires Exact(buffers, c)
    ensures Exact(buffers + [last], c)
  {
    BytesPrefix(buffers, last, c.from, c.to);
    NoGapPrefix(buffers, last, c.from, c.to, c.since);
  }

  /** The next buffer is not earlier than the one before it, or the start. */
  predicate Follows(start: real, t: Trace, buffers: seq<Buffer>, b: Buffer) {
    0.0 <= start <= b.at && (buffers != [] ==> t.meter.last <= b.at)
  }

  /** The window in progress when the next buffer arrives, after a restart if any:
      it takes the buffer without a gap and is not yet three seconds old. */
  lemma WindowTakes(start: real, buffers: seq<Buffer>, t: Trace, b: Buffer)
    requires Follows(start, t, buffers, b) && Open(start, buffers, t)
    ensures var i := |buffers|; var w := Restarted(t.meter, b.at);
            var first := if b.at - t.meter.last > IDLE_SEC then i else t.first;
      && w.bytes + b.size == Bytes(buffers + [b], first, i + 1)
      && NoGap(buffers + [b], first, i + 1, w.since)
      && 0.0 <= b.at - w.since < 3.0
  {
    var i := |buffers|;
    if b.at - t.meter.last <= IDLE_SEC {
      BytesPrefix(buffers, b, t.first, i);
      NoGapPrefix(buffers, b, t.first, i, t.meter.since);
    }
  }

  lemma OpenKeeps(start: real, buffers: seq<Buffer>, t: Trace, b: Buffer)
    requires Follows(start, t, buffers, b) && Open(start, buffers, t)
    ensures Open(start, buffers + [b], Observe(t, b, |buffers|))
  {
    WindowTakes(start, buffers, t, b);
  }

  lemma LogExact(buffers: seq<Buffer>, b: Buffer, log: seq<Closed>, first: nat, mbps: real)
    requires LoggedUpTo(buffers, log, first, mbps)
    ensures LoggedUpTo(buffers + [b], log, first, mbps)
  {
    forall k | 0 <= k < |log| ensures Exact(buffers + [b], log[k]) { ExactPrefix(buffers, b, log[k]); }
  }

  lemma LogGrows(buffers: seq<Buffer>, log: seq<Closed>, c: Closed, mbps: real)
    requires LoggedUpTo(buffers, log, c.from, mbps) && Exact(buffers, c)
    ensures LoggedUpTo(buffers, log + [c], c.to, c.mbps)
  {
  }

  lemma LoggedKeeps(start: real, buffers: seq<Buffer>, t: Trace, b: Buffer)
    requires Follows(start, t, buffers, b) && Open(start, buffers, t) && Logged(buffers, t)
    ensures Logged(buffers + [b], Observe(t, b, |buffers|))
  {
    var i, all, t' := |buffers|, buffers + [b], Observe(t, b, |buffers|);
    var first := if b.at - t.meter.last > IDLE_SEC then i else t.first;
    WindowTakes(start, buffers, t, b);
    LogExact(buffers, b, t.log, first, t.meter.mbps);
    if t'.log != t.log {
      LogGrows(all, t.log, t'.log[|t.log|], t.meter.mbps);
    }
  }

  predicate Balanced(buffers: seq<Buffer>, t: Trace) {
    InRange(buffers, t.log) && t.meter.total == LogBytes(buffers, t.log) + t.discarded + t.meter.bytes
  }

  /** The bytes add up again once the window in progress is closed or kept. */
  lemma CloseBalances(all: seq<Buffer>, log: seq<Closed>, c: Closed, other: nat, total: nat)
    requires InRange(all, log) && c.from <= c.to <= |all|
    requires total == LogBytes(all, log) + other + Bytes(all, c.from, c.to)
    ensures InRange(all, log + [c]) && total == LogBytes(all, log + [c]) + other
  {
  }

  lemma BalanceKeeps(start: real, buffers: seq<Buffer>, t: Trace, b: Buffer)
    requires Follows(start, t, buffers, b) && Open(start, buffers, t) && Balanced(buffers, t)
    ensures Balanced(buffers + [b], Observe(t, b, |buffers|))
  {
    var i, all, t' := |buffers|, buffers + [b], Observe(t, b, |buffers|);
    WindowTakes(start, buffers, t, b);
    LogPrefix(buffers, b, t.log);
    if t'.log != t.log {
      var c := t'.log[|t.log|];
      assert t'.log == t.log + [c] && c.to == i + 1;
      CloseBalances(all, t.log, c, t'.discarded, t'.meter.total);
    }
  }

  ghost predicate Right(start: real, buffers: seq<Buffer>, t: Trace) {
    && Logged(buffers, t) && Open(start, buffers, t) && Balanced(buffers, t)
    && t.meter.total == Bytes(buffers, 0, |buffers|)
  }

  lemma ObserveRight(start: real, buffers: seq<Buffer>, t: Trace, b: Buffer)
    requires Follows(start, t, buffers, b) && Right(start, buffers, t)
    ensures Right(start, buffers + [b], Observe(t, b, |buffers|))
  {
    OpenKeeps(start, buffers, t, b);
    LoggedKeeps(start, buffers, t, b);
    BalanceKeeps(start, buffers, t, b);
    BytesPrefix(buffers, b, 0, |buffers|);
  }

  /** Every rate ever published is exact for its window, windows do not overlap,
      and no byte is lost: closed, discarded and current bytes add up to the total. */
  lemma {:induction false} RatesAreExact(start: real, buffers: seq<Buffer>)
    requires Clocked(start, buffers)
    ensures Right(start, buffers, Run(start, buffers))
  {
    if buffers != [] {
      var before, b := buffers[..|buffers| - 1], buffers[|buffers| - 1];
      RatesAreExact(start, before);
      ObserveRight(start, before, Run(start, before), b);
      assert buffers == before + [b];
    }
  }

  /** `_on_buf`. */
  class PadProbe {
    var meter: Meter

    constructor (start: real)
      ensures meter == Started(start)
    {
      meter := Started(start);
    }

    method OnBuf(now: real, size: nat)
      modifies this
      ensures meter == OnBuffer(old(meter), Buffer(now, size))
    {
      meter := meter.(total := meter.total + size);
      if now - meter.last > IDLE_SEC {
        meter := meter.(since := now, bytes := 0);
      }
      meter := meter.(last := now);
      var elapsed := now - meter.since;
      meter := meter.(bytes := meter.bytes + size);
      if elapsed >= 1.0 {
        meter := meter.(mbps := Rate(meter.bytes, elapsed), since := now, bytes := 0);
      }
    }
  }
}
