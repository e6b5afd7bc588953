/** The handlers once more, as the updates of the flat tables the code performs;
    `Flat*` lemmas show each is its channel slice's effect and nothing else. */
module Tables {
  import opened Common
  import opened ControlPlane
  import opened Handlers
  import opened Protocol
  import opened Recovery

  function SetStatus(channels: map<ChannelId, Status>, c: ChannelId, st: Status): map<ChannelId, Status> {
    if c in channels then channels[c := st] else channels
  }

  function SetRow(rows: Rows, r: RecordingId, st: RecordingStatus): Rows {
    if r in rows then rows[r := rows[r].(status := st)] else rows
  }

  ghost function FailRows(rows: Rows, c: ChannelId): Rows {
    RowsNotOf(rows, c) + FailActive(RowsOf(rows, c))
  }

  /** What the worker remembers about recordings names rows of the right channel. */
  ghost predicate Remembers(k: Core) {
    forall c :: c in k.recordingIds && k.recordingIds[c] in k.recordings ==> k.recordings[k.recordingIds[c]].channel == c
  }

  ghost function StartTables(k: Core, c: ChannelId, env: Env): Core {
    if c !in k.sessions || !k.sessions[c].connected || !env.alive then
      k.(sessions := if c in k.sessions then k.sessions[c := k.sessions[c].(connected := false)] else k.sessions,
         pending := k.pending + {c})
    else if k.sessions[c].recording then k.(pending := k.pending - {c})
    else match env.starts
      case Acked => k.(
        channels := SetStatus(k.channels, c, Recording),
        recordings := k.recordings[env.newId := Row(c, InProgress, env.now)],
        sessions := k.sessions[c := k.sessions[c].(recording := true)],
        recordingIds := k.recordingIds[c := env.newId],
        pending := k.pending - {c})
      case Refused(still) => k.(
        channels := SetStatus(k.channels, c, if still then Connected else Error),
        recordings := k.recordings[env.newId := Row(c, Failed, env.now)],
        sessions := k.sessions[c := k.sessions[c].(connected := still)],
        recordingIds := k.recordingIds - {c},
        pending := k.pending - {c})
  }

  /** The row `_finalize_recording` closes: the remembered one, else the newest in
      progress. */
  ghost function Target(k: Core, c: ChannelId): Option<RecordingId> {
    if c in k.recordingIds && k.recordingIds[c] in k.recordings then Some(k.recordingIds[c])
    else Newest(RowsOf(k.recordings, c))
  }

  ghost function FinalizeTables(k: Core, c: ChannelId, s: Session): Core {
    if !s.recording && c !in k.recordingIds then k
    else
      var bare := k.(recordingIds := k.recordingIds - {c});
      match Target(k, c)
      case None => bare
      case Some(r) => bare.(recordings := SetRow(k.recordings, r, Completed), events := k.events + [Event(r, c)])
  }

  ghost function StopTables(k: Core, c: ChannelId, env: Env): Core {
    var k1 := k.(pending := k.pending - {c});
    if c !in k.sessions then
      k1.(channels := if c in k.channels && k.channels[c] in {Stopping, Recording, Starting}
                      then k.channels[c := Idle] else k.channels,
          recordings := FailRows(k.recordings, c))
    else
      var k2 := FinalizeTables(k1, c, k.sessions[c]);
      var still := k.sessions[c].connected && env.aliveAfterStop;
      k2.(sessions := k2.sessions[c := Session(still, false)],
          channels := SetStatus(k2.channels, c, if still then Connected else Idle))
  }

  ghost function DisconnectTables(k: Core, c: ChannelId): Core {
    var k1 := k.(pending := k.pending - {c}, sessions := k.sessions - {c});
    var k2 := if c in k.sessions && k.sessions[c].recording then FinalizeTables(k1, c, k.sessions[c]) else k1;
    k2.(channels := if c in k2.channels && Active(k2.channels[c]) then k2.channels[c := Idle] else k2.channels)
  }

  ghost function ReapTables(k: Core, c: ChannelId): Core {
    k.(channels := if c in k.channels && Active(k.channels[c]) then k.channels[c := Error] else k.channels,
       recordings := FailRows(k.recordings, c),
       sessions := k.sessions - {c},
       recordingIds := k.recordingIds - {c},
       pending := k.pending - {c})
  }

  // --------------------------------------------------------- slice by slice

  lemma WriteSame<K, V>(m: map<K, V>, k: K)
    ensures Write(m, k, Lookup(m, k)) == m
  {
  }

  lemma Overwrite<K, V>(m: map<K, V>, k: K, a: V, b: V)
    ensures m[k := a][k := b] == m[k := b] && m[k := a] - {k} == m - {k}
  {
  }

  /** Rows changed for `c` only. */
  ghost predicate RowsBecome(before: Rows, c: ChannelId, own: Rows, after: Rows) {
    RowsOf(after, c) == own && RowsNotOf(after, c) == RowsNotOf(before, c)
  }

  lemma PutTables(k: Core, c: ChannelId, e: Effect, k': Core)
    requires k'.channels == Write(k.channels, c, e.cell.status)
    requires k'.sessions == Write(k.sessions, c, e.cell.session)
    requires k'.recordingIds == Write(k.recordingIds, c, e.cell.recordingId)
    requires k'.pending == if e.cell.pending then k.pending + {c} else k.pending - {c}
    requires RowsBecome(k.recordings, c, e.cell.rows, k'.recordings)
    requires k'.claimed == k.claimed && k'.events == k.events + EventsFor(e.completed, c)
    ensures k' == Put(k, c, e)
  {
  }

  lemma AddBecomes(rows: Rows, c: ChannelId, r: RecordingId, row: Row)
    requires r !in rows && row.channel == c
    ensures RowsBecome(rows, c, RowsOf(rows, c)[r := row], rows[r := row])
  {
  }

  lemma SetBecomes(rows: Rows, c: ChannelId, r: RecordingId, st: RecordingStatus)
    requires r in rows && rows[r].channel == c
    ensures RowsBecome(rows, c, RowsOf(rows, c)[r := rows[r].(status := st)], SetRow(rows, r, st))
  {
  }

  lemma FailBecomes(rows: Rows, c: ChannelId)
    ensures RowsBecome(rows, c, FailActive(RowsOf(rows, c)), FailRows(rows, c))
  {
  }

  lemma FlatStart(k: Core, c: ChannelId, env: Env)
    requires env.newId !in k.recordings
    ensures StartTables(k, c, env) == Put(k, c, HandleStart(c, At(k, c), env))
  {
    WriteSame(k.channels, c);
    WriteSame(k.recordingIds, c);
    WriteSame(k.sessions, c);
    var e, k' := HandleStart(c, At(k, c), env), StartTables(k, c, env);
    if c !in k.sessions || !k.sessions[c].connected || !env.alive || k.sessions[c].recording {
      PutTables(k, c, e, k');
    } else if env.starts.Acked? {
      AddBecomes(k.recordings, c, env.newId, Row(c, InProgress, env.now));
      PutTables(k, c, e, k');
    } else {
      AddBecomes(k.recordings, c, env.newId, Row(c, Failed, env.now));
      PutTables(k, c, e, k');
    }
  }

  /** What a finalisation does to each table. */
  lemma FinalizeRows(k: Core, c: ChannelId, s: Session)
    requires Remembers(k)
    ensures var f, e := FinalizeTables(k, c, s), Finalize(At(k, c), s);
      && RowsBecome(k.recordings, c, e.cell.rows, f.recordings)
      && f.recordingIds == Write(k.recordingIds, c, e.cell.recordingId)
      && f.events == k.events + EventsFor(e.completed, c)
      && f == k.(recordings := f.recordings, recordingIds := f.recordingIds, events := f.events)
    ensures Remembers(FinalizeTables(k, c, s))
  {
    var e := Finalize(At(k, c), s);
    WriteSame(k.recordingIds, c);
    if s.recording || c in k.recordingIds {
      var t := Target(k, c);
      if t.Some? {
        assert t.value in RowsOf(k.recordings, c);
        assert e == Complete(At(k, c).(recordingId := None), t.value);
        SetBecomes(k.recordings, c, t.value, Completed);
        assert EventsFor([t.value], c) == [Event(t.value, c)];
      } else {
        assert e == Effect(At(k, c).(recordingId := None), []);
      }
    }
  }

  lemma FlatStop(k: Core, c: ChannelId, env: Env)
    requires Remembers(k)
    ensures StopTables(k, c, env) == Put(k, c, HandleStop(At(k, c), env))
  {
    WriteSame(k.channels, c);
    WriteSame(k.recordingIds, c);
    WriteSame(k.sessions, c);
    var e, k' := HandleStop(At(k, c), env), StopTables(k, c, env);
    if c !in k.sessions {
      FailBecomes(k.recordings, c);
      PutTables(k, c, e, k');
    } else {
      FinalizeThen(k, k.(pending := k.pending - {c}), c, e, k');
    }
  }

  lemma FlatDisconnect(k: Core, c: ChannelId)
    requires Remembers(k)
    ensures DisconnectTables(k, c) == Put(k, c, HandleDisconnect(At(k, c)))
  {
    WriteSame(k.channels, c);
    WriteSame(k.recordingIds, c);
    var e, k' := HandleDisconnect(At(k, c)), DisconnectTables(k, c);
    if c in k.sessions && k.sessions[c].recording {
      FinalizeThen(k, k.(pending := k.pending - {c}, sessions := k.sessions - {c}), c, e, k');
    } else {
      PutTables(k, c, e, k');
    }
  }

  /** A finalisation inside a handler, with the session map and status of the
      channel written around it. */
  lemma FinalizeThen(k: Core, k1: Core, c: ChannelId, e: Effect, k': Core)
    requires Remembers(k) && c in k.sessions
    requires k1.pending == k.pending - {c} && k1 == k.(pending := k1.pending, sessions := k1.sessions)
    requires k1.sessions == k.sessions || k1.sessions == k.sessions - {c}
    requires var f := FinalizeTables(k1, c, k.sessions[c]);
             k' == f.(channels := k'.channels, sessions := k'.sessions)
    requires k'.channels == Write(k.channels, c, e.cell.status)
    requires k'.sessions == Write(k.sessions, c, e.cell.session)
    requires var f := Finalize(At(k, c), k.sessions[c]);
             e.completed == f.completed && e.cell == f.cell.(pending := false, session := e.cell.session, status := e.cell.status)
    ensures k' == Put(k, c, e)
  {
    var s := k.sessions[c];
    FinalizeFrame(At(k1, c), At(k, c), s);
    FinalizeRows(k1, c, s);
    WriteSame(k.channels, c);
    PutTables(k, c, e, k');
  }

  lemma FinalizeFrame(a: Cell, b: Cell, s: Session)
    requires a.rows == b.rows && a.recordingId == b.recordingId
    ensures Finalize(a, s).completed == Finalize(b, s).completed
    ensures Finalize(a, s).cell.rows == Finalize(b, s).cell.rows
    ensures Finalize(a, s).cell.recordingId == Finalize(b, s).cell.recordingId
  {
  }

  lemma FlatReap(k: Core, c: ChannelId)
    requires Dead(k, c)
    ensures ReapTables(k, c) == Put(k, c, Heartbeat(At(k, c)))
  {
  }

  // ----------------------------------------------------------------- connect

  ghost function ConnectTables(k: Core, c: ChannelId, capacity: nat, env: Env): Core {
    var nested := env.(alive := env.survives);
    var up := k.(channels := if c in k.channels && k.channels[c] == Connecting
                             then k.channels[c := Connected] else k.channels);
    if c in k.sessions && k.sessions[c].connected then
      if c in k.pending then StartTables(up, c, nested) else up
    else if |k.sessions| >= capacity then
      k.(channels := if c in k.channels && k.channels[c] in {Connecting, Starting}
                     then k.channels[c := Error] else k.channels)
    else if c !in k.channels then k
    else if !env.connects then k.(channels := k.channels[c := Error])
    else
      var live := up.(sessions := k.sessions[c := Session(true, false)]);
      if k.channels[c] == Starting || c in k.pending then StartTables(live, c, nested) else live
  }

  lemma PutTwice(k: Core, c: ChannelId, up: Effect, e: Effect)
    requires up.completed == []
    requires OwnRows(k, c, up.cell.rows)
    ensures Put(Put(k, c, up), c, e) == Put(k, c, e)
  {
    var k1 := Put(k, c, up);
    assert RowsNotOf(k1.recordings, c) == RowsNotOf(k.recordings, c);
    assert k1.events == k.events;
    assert Put(k1, c, e).channels == Put(k, c, e).channels;
    assert Put(k1, c, e).sessions == Put(k, c, e).sessions;
    assert Put(k1, c, e).recordingIds == Put(k, c, e).recordingIds;
    assert Put(k1, c, e).pending == Put(k, c, e).pending;
  }

  /** A start run inside a connect is one step on the channel. */
  lemma NestedStart(k: Core, c: ChannelId, up: Cell, k1: Core, env: Env)
    requires env.newId !in k.recordings && up.rows == At(k, c).rows
    requires k1 == Put(k, c, Effect(up, [])) && k1.recordings == k.recordings
    ensures StartTables(k1, c, env) == Put(k, c, HandleStart(c, up, env))
  {
    PutOwn(k, c, Effect(up, []));
    FlatStart(k1, c, env);
    PutTwice(k, c, Effect(up, []), HandleStart(c, up, env));
  }

  /** A nested start on the state a connect left, when one is wanted. */
  ghost function ThenStart(k1: Core, c: ChannelId, start: bool, env: Env): Core {
    if start then StartTables(k1, c, env) else k1
  }

  /** The channel once its session is up, before a nested start; `live`: the
      session is new. */
  function UpCell(cell: Cell, live: bool): Cell {
    cell.(status := if cell.status == Some(Connecting) then Some(Connected) else cell.status,
          session := if live then Some(Session(true, false)) else cell.session)
  }

  function UpTables(k: Core, c: ChannelId, live: bool): Core {
    k.(channels := if c in k.channels && k.channels[c] == Connecting then k.channels[c := Connected] else k.channels,
       sessions := if live then k.sessions[c := Session(true, false)] else k.sessions)
  }

  lemma ConnectUp(k: Core, c: ChannelId, live: bool, start: bool, env: Env)
    requires env.newId !in k.recordings
    ensures ThenStart(UpTables(k, c, live), c, start, env) ==
            Put(k, c, if start then HandleStart(c, UpCell(At(k, c), live), env) else Effect(UpCell(At(k, c), live), []))
  {
    var up, k1 := UpCell(At(k, c), live), UpTables(k, c, live);
    WriteSame(k.channels, c);
    WriteSame(k.recordingIds, c);
    WriteSame(k.sessions, c);
    PutTables(k, c, Effect(up, []), k1);
    if start { NestedStart(k, c, up, k1, env); }
  }

  lemma ConnectDown(k: Core, c: ChannelId, st: Option<Status>, k1: Core)
    requires k1 == k.(channels := Write(k.channels, c, st))
    ensures k1 == Put(k, c, Effect(At(k, c).(status := st), []))
  {
  }

  lemma FlatConnectLive(k: Core, c: ChannelId, capacity: nat, env: Env)
    requires env.newId !in k.recordings && c in k.sessions && k.sessions[c].connected
    ensures ConnectTables(k, c, capacity, env) == Put(k, c, HandleConnect(c, At(k, c), |k.sessions| >= capacity, env))
  {
    var nested := env.(alive := env.survives);
    ConnectUp(k, c, false, c in k.pending, nested);
    assert ConnectTables(k, c, capacity, env) == ThenStart(UpTables(k, c, false), c, c in k.pending, nested);
  }

  lemma FlatConnectRefused(k: Core, c: ChannelId, capacity: nat, env: Env)
    requires !(c in k.sessions && k.sessions[c].connected)
    requires |k.sessions| >= capacity || c !in k.channels || !env.connects
    ensures ConnectTables(k, c, capacity, env) == Put(k, c, HandleConnect(c, At(k, c), |k.sessions| >= capacity, env))
  {
    WriteSame(k.channels, c);
    var st := HandleConnect(c, At(k, c), |k.sessions| >= capacity, env).cell.status;
    ConnectDown(k, c, st, ConnectTables(k, c, capacity, env));
  }

  predicate WantsStart(k: Core, c: ChannelId) {
    (c in k.channels && k.channels[c] == Starting) || c in k.pending
  }

  lemma FreshTables(k: Core, c: ChannelId, capacity: nat, env: Env)
    requires !(c in k.sessions && k.sessions[c].connected)
    requires |k.sessions| < capacity && c in k.channels && env.connects
    ensures ConnectTables(k, c, capacity, env) ==
            ThenStart(UpTables(k, c, true), c, WantsStart(k, c), env.(alive := env.survives))
  {
  }

  lemma FreshCell(k: Core, c: ChannelId, env: Env)
    requires !(c in k.sessions && k.sessions[c].connected) && c in k.channels && env.connects
    ensures HandleConnect(c, At(k, c), false, env) ==
            if WantsStart(k, c) then HandleStart(c, UpCell(At(k, c), true), env.(alive := env.survives))
            else Effect(UpCell(At(k, c), true), [])
  {
  }

  lemma FlatConnectFresh(k: Core, c: ChannelId, capacity: nat, env: Env)
    requires env.newId !in k.recordings && !(c in k.sessions && k.sessions[c].connected)
    requires |k.sessions| < capacity && c in k.channels && env.connects
    ensures ConnectTables(k, c, capacity, env) == Put(k, c, HandleConnect(c, At(k, c), |k.sessions| >= capacity, env))
  {
    ConnectUp(k, c, true, WantsStart(k, c), env.(alive := env.survives));
    FreshTables(k, c, capacity, env);
    FreshCell(k, c, env);
  }

  lemma FlatConnect(k: Core, c: ChannelId, capacity: nat, env: Env)
    requires env.newId !in k.recordings
    ensures ConnectTables(k, c, capacity, env) == Put(k, c, HandleConnect(c, At(k, c), |k.sessions| >= capacity, env))
  {
    if c in k.sessions && k.sessions[c].connected {
      FlatConnectLive(k, c, capacity, env);
    } else if |k.sessions| >= capacity || c !in k.channels || !env.connects {
      FlatConnectRefused(k, c, capacity, env);
    } else {
      FlatConnectFresh(k, c, capacity, env);
    }
  }

  // -------------------------------------------------- channel-by-channel loops

  /** `done` have had their heartbeat, the others are as in `k`. */
  ghost predicate Beaten(k: Core, k1: Core, done: set<ChannelId>) {
    && k1.claimed == k.sessions.Keys && k1.events == k.events
    && forall d :: At(k1, d) == if d in done then Heartbeat(At(k, d)).cell else At(k, d)
  }

  lemma BeatOne(k: Core, k1: Core, done: set<ChannelId>, c: ChannelId)
    requires Beaten(k, k1, done) && c !in done
    ensures Beaten(k, if Dead(k, c) then ReapTables(k1, c) else k1, done + {c})
  {
    assert At(k1, c) == At(k, c);
    if Dead(k, c) {
      assert Dead(k1, c) by { assert Lookup(k1.sessions, c) == Lookup(k.sessions, c); }
      FlatReap(k1, c);
      var e := Heartbeat(At(k1, c));
      PutOwn(k1, c, e);
      forall d | d != c ensures At(ReapTables(k1, c), d) == At(k1, d) { PutOther(k1, c, e, d); }
    }
  }

  lemma BeatAll(k: Core, k1: Core)
    requires Beaten(k, k1, k.sessions.Keys)
    ensures k1 == Reap(k)
  {
    forall d ensures At(k1, d) == At(Reap(k), d) { ReapAt(k, d); }
    CoreExtensional(k1, Reap(k));
  }

  ghost function OrphanTables(k: Core, c: ChannelId): Core {
    k.(channels := k.channels[c := Idle], recordings := FailRows(k.recordings, c))
  }

  ghost predicate Reset(k: Core, k1: Core, done: set<ChannelId>) {
    && k1.claimed == k.claimed && k1.events == k.events && k1.sessions == k.sessions
    && forall d :: At(k1, d) == if d in done then ReconciledCell(k, d) else At(k, d)
  }

  lemma ResetOne(k: Core, k1: Core, done: set<ChannelId>, c: ChannelId)
    requires Reset(k, k1, done) && c !in done
    ensures Reset(k, if Orphan(k, c) then OrphanTables(k1, c) else k1, done + {c})
  {
    assert At(k1, c) == At(k, c);
    if Orphan(k, c) {
      var e := Effect(ReconciledCell(k, c), []);
      FailBecomes(k1.recordings, c);
      WriteSame(k1.sessions, c);
      WriteSame(k1.recordingIds, c);
      PutTables(k1, c, e, OrphanTables(k1, c));
      assert OwnRows(k1, c, e.cell.rows);
      PutOwn(k1, c, e);
      forall d | d != c ensures At(OrphanTables(k1, c), d) == At(k1, d) { PutOther(k1, c, e, d); }
    }
  }

  /** The rows a heartbeat of every orphan leaves, claimed or not looked at. */
  lemma ResetAll(k: Core, k1: Core, done: set<ChannelId>)
    requires k.claimed != {} && Reset(k, k1, done)
    requires forall c :: Orphan(k, c) ==> c in done
    ensures k1.(claimed := k.claimed * k.sessions.Keys) == Reconcile(k)
  {
    var k2 := k1.(claimed := k.claimed * k.sessions.Keys);
    forall d ensures At(k2, d) == At(Reconcile(k), d) {
      ReconcileAt(k, d);
      assert At(k2, d) == At(k1, d);
    }
    CoreExtensional(k2, Reconcile(k));
  }

  /** `done` have been torn down as by a disconnect job. */
  ghost predicate TornDown(k: Core, k1: Core, done: set<ChannelId>) {
    forall d :: At(k1, d) == if d in done then HandleDisconnect(At(k, d)).cell else At(k, d)
  }

  lemma TearOne(k: Core, k1: Core, done: set<ChannelId>, c: ChannelId)
    requires TornDown(k, k1, done) && c !in done
    ensures TornDown(k, Put(k1, c, HandleDisconnect(At(k1, c))), done + {c})
  {
    var e := HandleDisconnect(At(k1, c));
    assert At(k1, c) == At(k, c);
    ApplyOwnRows(c, At(k1, c), Disconnect, QUIET);
    assert forall r :: r in e.cell.rows ==> r in At(k1, c).rows by {
      if At(k1, c).session.Some? { FinalizeKeys(At(k1, c), At(k1, c).session.value); }
    }
    PutOwn(k1, c, e);
    forall d | d != c ensures At(Put(k1, c, e), d) == At(k1, d) { PutOther(k1, c, e, d); }
  }

  lemma FinalizeKeys(cell: Cell, s: Session)
    ensures Finalize(cell, s).cell.rows.Keys == cell.rows.Keys
  {
  }

  // -------------------------------------------------------------- remembering

  lemma StartRemembers(k: Core, c: ChannelId, env: Env)
    requires Remembers(k) && env.newId !in k.recordings && env.newId !in k.recordingIds.Values
    ensures Remembers(StartTables(k, c, env))
  {
  }

  lemma StopRemembers(k: Core, c: ChannelId, env: Env)
    requires Remembers(k)
    ensures Remembers(StopTables(k, c, env))
  {
  }

  lemma DisconnectRemembers(k: Core, c: ChannelId)
    requires Remembers(k)
    ensures Remembers(DisconnectTables(k, c))
  {
  }

  lemma FailRemembers(k: Core, k': Core, c: ChannelId)
    requires Remembers(k) && k'.recordings == FailRows(k.recordings, c)
    requires forall d :: d in k'.recordingIds ==> d in k.recordingIds && k'.recordingIds[d] == k.recordingIds[d]
    ensures Remembers(k')
  {
  }
}
