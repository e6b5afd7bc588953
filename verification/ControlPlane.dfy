/** The control plane's shared state: channel and recording rows, the worker's
    in-memory maps, and a per-channel lens over both.

    Every worker handler touches one channel only, so a handler is written as a
    function on the slice (`Cell`) of the state that belongs to that channel, and
    `Put` writes the slice back into the flat tables.  `PutOwn` and `PutOther` are
    the lens laws; `CoreExtensional` says the slices determine the tables. */
module ControlPlane {

  import opened Common

  type ChannelId = string

  /** A uuid4; only its freshness matters. */
  type RecordingId = nat

  datatype Status =
    | Idle | Connecting | Connected | Starting
    | Recording | Stopping | Disconnecting | Error

  /** ACTIVE_STATUSES of the worker; the complement is what the API lets a
      caller delete or reconnect. */
  predicate Active(st: Status) {
    st != Idle && st != Error
  }

  /** A status the worker still owes a job for. */
  predicate Transitional(st: Status) {
    st == Connecting || st == Disconnecting || st == Stopping || st == Starting
  }

  datatype RecordingStatus = InProgress | Completed | Failed

  datatype Row = Row(channel: ChannelId, status: RecordingStatus, startedAt: int)

  type Rows = map<RecordingId, Row>

  /** A live session, reduced to the two facts the worker reads from it. */
  datatype Session = Session(connected: bool, recording: bool)

  /** One POSTPROCESS event; RECORDING_COMPLETE carries the same payload. */
  datatype Event = Event(recording: RecordingId, channel: ChannelId)

  datatype Core = Core(
    channels: map<ChannelId, Status>,
    recordings: Rows,
    claimed: set<ChannelId>,
    sessions: map<ChannelId, Session>,
    recordingIds: map<ChannelId, RecordingId>,
    pending: set<ChannelId>,
    events: seq<Event>)

  /** Everything the state holds about one channel. */
  datatype Cell = Cell(
    status: Option<Status>,
    rows: Rows,
    session: Option<Session>,
    recordingId: Option<RecordingId>,
    pending: bool)

  /** What a handler does to its channel: the new slice and what it publishes. */
  datatype Effect = Effect(cell: Cell, completed: seq<RecordingId>)

  function Lookup<K, V>(m: map<K, V>, k: K): Option<V> {
    if k in m then Some(m[k]) else None
  }

  function Write<K, V>(m: map<K, V>, k: K, v: Option<V>): map<K, V> {
    if v.Some? then m[k := v.value] else m - {k}
  }

  function RowsOf(rows: Rows, c: ChannelId): Rows {
    map r | r in rows && rows[r].channel == c :: rows[r]
  }

  function RowsNotOf(rows: Rows, c: ChannelId): Rows {
    map r | r in rows && rows[r].channel != c :: rows[r]
  }

  function At(k: Core, c: ChannelId): Cell {
    Cell(
      Lookup(k.channels, c),
      RowsOf(k.recordings, c),
      Lookup(k.sessions, c),
      Lookup(k.recordingIds, c),
      c in k.pending)
  }

  function EventsFor(rs: seq<RecordingId>, c: ChannelId): seq<Event> {
    seq(|rs|, i requires 0 <= i < |rs| => Event(rs[i], c))
  }

  function Put(k: Core, c: ChannelId, e: Effect): Core {
    k.(channels := Write(k.channels, c, e.cell.status),
       recordings := RowsNotOf(k.recordings, c) + e.cell.rows,
       sessions := Write(k.sessions, c, e.cell.session),
       recordingIds := Write(k.recordingIds, c, e.cell.recordingId),
       pending := if e.cell.pending then k.pending + {c} else k.pending - {c},
       events := k.events + EventsFor(e.completed, c))
  }

  /** `rows` may stand as the rows of `c`: they are all of that channel, and do
      not reuse an identifier another channel's row already has. */
  ghost predicate OwnRows(k: Core, c: ChannelId, rows: Rows) {
    forall r :: r in rows ==>
      rows[r].channel == c && (r in k.recordings ==> k.recordings[r].channel == c)
  }

  lemma PutOwn(k: Core, c: ChannelId, e: Effect)
    requires OwnRows(k, c, e.cell.rows)
    ensures At(Put(k, c, e), c) == e.cell
  {
  }

  lemma WriteOther<K, V>(m: map<K, V>, k: K, v: Option<V>, l: K)
    requires k != l
    ensures Lookup(Write(m, k, v), l) == Lookup(m, l)
  {
  }

  lemma RowsOther(rows: Rows, c: ChannelId, own: Rows, d: ChannelId)
    requires c != d
    requires forall r :: r in own ==> own[r].channel == c && (r in rows ==> rows[r].channel == c)
    ensures RowsOf(RowsNotOf(rows, c) + own, d) == RowsOf(rows, d)
  {
  }

  lemma PutOther(k: Core, c: ChannelId, e: Effect, d: ChannelId)
    requires c != d && OwnRows(k, c, e.cell.rows)
    ensures At(Put(k, c, e), d) == At(k, d)
  {
    WriteOther(k.channels, c, e.cell.status, d);
    WriteOther(k.sessions, c, e.cell.session, d);
    WriteOther(k.recordingIds, c, e.cell.recordingId, d);
    RowsOther(k.recordings, c, e.cell.rows, d);
  }

  lemma CoreExtensional(a: Core, b: Core)
    requires forall c :: At(a, c) == At(b, c)
    requires a.claimed == b.claimed && a.events == b.events
    ensures a == b
  {
    forall c ensures Lookup(a.channels, c) == Lookup(b.channels, c)
                  && RowsOf(a.recordings, c) == RowsOf(b.recordings, c)
                  && Lookup(a.sessions, c) == Lookup(b.sessions, c)
                  && Lookup(a.recordingIds, c) == Lookup(b.recordingIds, c)
                  && (c in a.pending <==> c in b.pending)
    {
      assert At(a, c) == At(b, c);
    }
    LookupExtensional(a.channels, b.channels);
    LookupExtensional(a.sessions, b.sessions);
    LookupExtensional(a.recordingIds, b.recordingIds);
    RowsExtensional(a.recordings, b.recordings);
    assert a.pending == b.pending;
  }

  lemma LookupExtensional<K(!new), V>(a: map<K, V>, b: map<K, V>)
    requires forall k :: Lookup(a, k) == Lookup(b, k)
    ensures a == b
  {
    forall k ensures k in a <==> k in b {
      assert Lookup(a, k) == Lookup(b, k);
    }
    forall k | k in a ensures a[k] == b[k] {
      assert Lookup(a, k) == Lookup(b, k);
    }
  }

  lemma RowsExtensional(a: Rows, b: Rows)
    requires forall c :: RowsOf(a, c) == RowsOf(b, c)
    ensures a == b
  {
    forall r | r in a ensures r in b && a[r] == b[r] {
      assert r in RowsOf(a, a[r].channel);
      assert RowsOf(a, a[r].channel) == RowsOf(b, a[r].channel);
    }
    forall r | r in b ensures r in a {
      assert r in RowsOf(b, b[r].channel);
      assert RowsOf(a, b[r].channel) == RowsOf(b, b[r].channel);
    }
  }

  // ------------------------------------------------------------------ rows

  predicate ActiveRow(rows: Rows, r: RecordingId) {
    r in rows && rows[r].status == InProgress
  }

  /** The query's order: latest start first.  Equal start times, which the query
      leaves open, are told apart by identifier. */
  predicate Later(rows: Rows, a: RecordingId, b: RecordingId)
    requires a in rows && b in rows
  {
    rows[a].startedAt > rows[b].startedAt
    || (rows[a].startedAt == rows[b].startedAt && a >= b)
  }

  predicate NewestActive(rows: Rows, r: RecordingId) {
    ActiveRow(rows, r) && forall q | q in rows && ActiveRow(rows, q) :: Later(rows, r, q)
  }

  lemma NewestUnique(rows: Rows, a: RecordingId, b: RecordingId)
    requires NewestActive(rows, a) && NewestActive(rows, b)
    ensures a == b
  {
  }

  lemma NewestExists(rows: Rows, r: RecordingId)
    requires ActiveRow(rows, r)
    ensures exists q :: NewestActive(rows, q)
  {
    var active := set q | q in rows && ActiveRow(rows, q);
    assert r in active;
    var n := LatestOf(rows, active);
    forall q | q in rows && ActiveRow(rows, q) ensures Later(rows, n, q) {
      assert q in active;
    }
    assert NewestActive(rows, n);
  }

  lemma LatestOf(rows: Rows, ids: set<RecordingId>) returns (n: RecordingId)
    requires ids != {} && ids <= rows.Keys
    ensures n in ids && forall q | q in ids :: Later(rows, n, q)
    decreases ids
  {
    var first :| first in ids;
    var rest := ids - {first};
    n := first;
    if rest != {} {
      var m := LatestOf(rows, rest);
      if Later(rows, m, first) { n := m; }
      assert forall q | q in rest :: Later(rows, m, q);
    }
    assert ids == rest + {first};
  }

  /** The row `.order_by(started_at.desc()).first()` returns. */
  ghost function Newest(rows: Rows): (out: Option<RecordingId>)
    ensures out.Some? ==> NewestActive(rows, out.value)
    ensures out.None? <==> forall r: RecordingId :: !ActiveRow(rows, r)
  {
    if exists r: RecordingId :: ActiveRow(rows, r) then
      var a: RecordingId :| ActiveRow(rows, a);
      NewestExists(rows, a);
      var r: RecordingId :| NewestActive(rows, r);
      Some(r)
    else None
  }

  /** `_fail_active_recording`: the newest row still in progress becomes failed. */
  ghost function FailActive(rows: Rows): (out: Rows)
    ensures out.Keys == rows.Keys
    ensures forall r | r in rows :: out[r] == rows[r] || (ActiveRow(rows, r) && out[r] == rows[r].(status := Failed))
  {
    match Newest(rows)
    case None => rows
    case Some(r) => rows[r := rows[r].(status := Failed)]
  }

  /** With at most one row in progress, nothing is left in progress. */
  lemma FailActiveClears(rows: Rows, r: RecordingId)
    requires forall q: RecordingId :: ActiveRow(rows, q) ==> q == r
    ensures forall q: RecordingId :: !ActiveRow(FailActive(rows), q)
    ensures ActiveRow(rows, r) ==> FailActive(rows) == rows[r := rows[r].(status := Failed)]
    ensures !ActiveRow(rows, r) ==> FailActive(rows) == rows
  {
    assert Newest(rows) == if ActiveRow(rows, r) then Some(r) else None;
  }
}
