/** The worker's handlers as functions on one channel's slice, and what each of
    them keeps: the agreement between rows, maps and status (`Agrees`), the
    backing of every transitional status by a job (`Backed`), and the life of a
    recording row (`Settles`). */
module Handlers {
  import opened Common
  import opened ControlPlane

  datatype StartOutcome = Acked | Refused(stillConnected: bool)

  /** What the outside world answers while one handler runs.
      `alive`: a connected session still is when the handler looks at it;
      `connects`: `session.connect` returns; `survives`: the session it built is
      still up for the nested record start; `starts`: how `start_recording` ends;
      `aliveAfterStop`: still connected once the recording is finalised. */
  datatype Env = Env(
    alive: bool,
    connects: bool,
    survives: bool,
    starts: StartOutcome,
    aliveAfterStop: bool,
    newId: RecordingId,
    now: int)

  datatype Op = NoOp | Disconnect | Stop | Start

  // -------------------------------------------------------------- handlers

  /** One session's share of a heartbeat: a dead session is dropped, its
      recording failed and an active channel moved to error. */
  ghost function Heartbeat(cell: Cell): Effect {
    if cell.session.None? || cell.session.value.connected then Effect(cell, [])
    else Effect(cell.(
      status := if cell.status.Some? && Active(cell.status.value) then Some(Error) else cell.status,
      rows := FailActive(cell.rows),
      session := None,
      recordingId := None,
      pending := false), [])
  }

  /** `_finalize_recording(completed=True)`. */
  ghost function Finalize(cell: Cell, s: Session): Effect {
    if !s.recording && cell.recordingId.None? then Effect(cell, [])
    else
      var bare := cell.(recordingId := None);
      if cell.recordingId.Some? && cell.recordingId.value in cell.rows then
        Complete(bare, cell.recordingId.value)
      else match Newest(cell.rows)
        case Some(r) => Complete(bare, r)
        case None => Effect(bare, [])
  }

  function Complete(cell: Cell, r: RecordingId): Effect
    requires r in cell.rows
  {
    Effect(cell.(rows := cell.rows[r := cell.rows[r].(status := Completed)]), [r])
  }

  ghost function HandleDisconnect(cell: Cell): Effect {
    var e :=
      if cell.session.Some? && cell.session.value.recording
      then Finalize(cell, cell.session.value)
      else Effect(cell, []);
    Effect(e.cell.(
      status := if cell.status.Some? && Active(cell.status.value) then Some(Idle) else cell.status,
      session := None,
      pending := false), e.completed)
  }

  function HandleStart(c: ChannelId, cell: Cell, env: Env): Effect {
    if cell.session.None? then Effect(cell.(pending := true), [])
    else
      var s := cell.session.value;
      if !s.connected || !env.alive then
        Effect(cell.(session := Some(s.(connected := false)), pending := true), [])
      else if s.recording then Effect(cell.(pending := false), [])
      else
        var row := Row(c, InProgress, env.now);
        var known := cell.status.Some?;
        match env.starts
        case Acked =>
          Effect(cell.(
            status := if known then Some(Recording) else None,
            rows := cell.rows[env.newId := row],
            session := Some(s.(recording := true)),
            recordingId := Some(env.newId),
            pending := false), [])
        case Refused(still) =>
          Effect(cell.(
            status := if !known then None else if still then Some(Connected) else Some(Error),
            rows := cell.rows[env.newId := row.(status := Failed)],
            session := Some(s.(connected := still)),
            recordingId := None,
            pending := false), [])
  }

  ghost function HandleStop(cell: Cell, env: Env): Effect {
    if cell.session.None? then
      Effect(cell.(
        status := if cell.status in {Some(Stopping), Some(Recording), Some(Starting)} then Some(Idle) else cell.status,
        rows := FailActive(cell.rows),
        pending := false), [])
    else
      var s := cell.session.value;
      var still := s.connected && env.aliveAfterStop;
      var e := Finalize(cell, s);
      Effect(e.cell.(
        status := if cell.status.None? then None else if still then Some(Connected) else Some(Idle),
        session := Some(Session(still, false)),
        pending := false), e.completed)
  }

  /** `full`: the worker already holds as many sessions as its capacity. */
  function HandleConnect(c: ChannelId, cell: Cell, full: bool, env: Env): Effect {
    var nested := env.(alive := env.survives);
    if cell.session.Some? && cell.session.value.connected then
      var up := cell.(status := if cell.status == Some(Connecting) then Some(Connected) else cell.status);
      if cell.pending then HandleStart(c, up, nested) else Effect(up, [])
    else if full then
      Effect(cell.(status := if cell.status in {Some(Connecting), Some(Starting)} then Some(Error) else cell.status), [])
    else if cell.status.None? then Effect(cell, [])
    else if !env.connects then Effect(cell.(status := Some(Error)), [])
    else
      var up := cell.(
        status := if cell.status == Some(Connecting) then Some(Connected) else cell.status,
        session := Some(Session(true, false)));
      if cell.status == Some(Starting) || cell.pending then HandleStart(c, up, nested) else Effect(up, [])
  }

  /** `_resolve_ops`: at most one handler per channel and tick. */
  function Resolve(status: Option<Status>, disconnect: bool, stop: bool, start: bool): Op {
    if disconnect then Disconnect
    else if start && stop then (if status == Some(Stopping) then Stop else Start)
    else if stop then Stop
    else if start then Start
    else NoOp
  }

  ghost function Apply(c: ChannelId, cell: Cell, op: Op, env: Env): Effect {
    match op
    case NoOp => Effect(cell, [])
    case Disconnect => HandleDisconnect(cell)
    case Stop => HandleStop(cell, env)
    case Start => HandleStart(c, cell, env)
  }

  // ------------------------------------------------------------ invariants

  /** What the worker remembers is a row in progress, its session is recording, and
      the status, while there is a channel row, says so.  This much survives any
      crash. */
  ghost predicate Tracked(cell: Cell) {
    && (cell.recordingId.Some? <==> (cell.session.Some? && cell.session.value.recording))
    && (cell.recordingId.Some? ==>
          ActiveRow(cell.rows, cell.recordingId.value)
          && cell.status in {None, Some(Recording), Some(Stopping), Some(Disconnecting)})
  }

  /** Nothing else is in progress, and every worked status has a session. */
  ghost predicate Agrees(cell: Cell) {
    && Tracked(cell)
    && (cell.status in {Some(Connected), Some(Starting), Some(Recording), Some(Stopping)} ==> cell.session.Some?)
    && (forall r: RecordingId :: ActiveRow(cell.rows, r) ==> cell.recordingId == Some(r))
  }

  /** Which jobs for the channel are accepted, queued or handed over. */
  datatype Jobs = Jobs(connect: bool, disconnect: bool, stop: bool, start: bool)

  /** No stranded intent: a transitional status still has the job that ends it,
      or is a start held by a dead session, which the next heartbeat clears. */
  predicate Backed(cell: Cell, j: Jobs) {
    && (cell.status == Some(Connecting) ==> j.connect)
    && (cell.status == Some(Disconnecting) ==> j.disconnect)
    && (cell.status == Some(Stopping) ==> j.stop)
    && (cell.status == Some(Starting) ==>
          j.start || (cell.pending && cell.session.Some? && !cell.session.value.connected))
  }

  /** Completed and failed are absorbing; exactly the rows that became completed
      are published, once each. */
  ghost predicate Settles(before: Rows, e: Effect) {
    && (forall r :: r in before ==> r in e.cell.rows && e.cell.rows[r].channel == before[r].channel)
    && (forall r :: r in before && before[r].status != InProgress ==> e.cell.rows[r].status == before[r].status)
    && (forall r :: r in e.cell.rows ==>
          (r in e.completed <==> e.cell.rows[r].status == Completed && (r !in before || before[r].status != Completed)))
    && (forall r :: r in e.completed ==> r in e.cell.rows)
    && |e.completed| <= 1
  }

  /** A handler for `c` only adds rows of `c`, under its fresh identifier. */
  ghost predicate OnlyAdds(c: ChannelId, before: Rows, e: Effect, newId: RecordingId) {
    forall r :: r in e.cell.rows ==> r in before || (r == newId && e.cell.rows[r].channel == c)
  }

  /** What every handler keeps, whatever an earlier crash left behind. */
  ghost predicate Persists(c: ChannelId, cell: Cell, e: Effect, env: Env) {
    Tracked(e.cell) && Settles(cell.rows, e) && OnlyAdds(c, cell.rows, e, env.newId)
  }

  ghost predicate Keeps(c: ChannelId, cell: Cell, e: Effect, env: Env) {
    Agrees(e.cell) && Persists(c, cell, e, env)
  }

  lemma OneActive(cell: Cell)
    requires Agrees(cell)
    ensures cell.recordingId.None? ==> FailActive(cell.rows) == cell.rows
    ensures cell.recordingId.Some? ==>
              var r := cell.recordingId.value;
              FailActive(cell.rows) == cell.rows[r := cell.rows[r].(status := Failed)]
  {
  }

  /** A recording session is always finalised through the identifier the worker
      remembers: the query by status is never needed. */
  lemma FinalizeKnown(cell: Cell)
    requires Tracked(cell) && cell.session.Some?
    ensures var e := Finalize(cell, cell.session.value);
            if cell.recordingId.Some?
            then e == Complete(cell.(recordingId := None), cell.recordingId.value)
            else e == Effect(cell, [])
  {
  }

  lemma HeartbeatPersists(c: ChannelId, cell: Cell, env: Env)
    requires Tracked(cell)
    ensures Persists(c, cell, Heartbeat(cell), env)
  {
  }

  lemma StopPersists(c: ChannelId, cell: Cell, env: Env)
    requires Tracked(cell)
    ensures Persists(c, cell, HandleStop(cell, env), env)
  {
    if cell.session.Some? { FinalizeKnown(cell); }
  }

  lemma ApplyPersists(c: ChannelId, cell: Cell, op: Op, env: Env)
    requires Tracked(cell) && env.newId !in cell.rows
    ensures var e := Apply(c, cell, op, env);
            Persists(c, cell, e, env) && (e.cell.session.Some? ==> cell.session.Some?)
  {
    match op
    case NoOp =>
    case Disconnect => if cell.session.Some? { FinalizeKnown(cell); }
    case Stop => StopPersists(c, cell, env);
    case Start =>
  }

  lemma StartPersists(c: ChannelId, cell: Cell, env: Env)
    requires Tracked(cell) && env.newId !in cell.rows
    ensures Persists(c, cell, HandleStart(c, cell, env), env)
  {
  }

  lemma ConnectPersists(c: ChannelId, cell: Cell, full: bool, env: Env)
    requires Tracked(cell) && env.newId !in cell.rows
    requires cell.session.None? || cell.session.value.connected
    ensures var e := HandleConnect(c, cell, full, env);
            Persists(c, cell, e, env) && (full ==> (e.cell.session.Some? ==> cell.session.Some?))
  {
    var nested := env.(alive := env.survives);
    var up := cell.(status := if cell.status == Some(Connecting) then Some(Connected) else cell.status);
    if cell.session.Some? {
      StartPersists(c, up, nested);
    } else {
      StartPersists(c, up.(session := Some(Session(true, false))), nested);
    }
  }

  lemma HeartbeatKeeps(c: ChannelId, cell: Cell, env: Env)
    requires Agrees(cell)
    ensures var e := Heartbeat(cell);
            Keeps(c, cell, e, env) && (e.cell.session.Some? ==> e.cell.session.value.connected && e.cell == cell)
    ensures forall j :: Backed(cell, j) ==> Backed(Heartbeat(cell).cell, j)
  {
    OneActive(cell);
  }

  lemma DisconnectKeeps(c: ChannelId, cell: Cell, env: Env)
    requires Agrees(cell)
    ensures Keeps(c, cell, HandleDisconnect(cell), env)
    ensures var d := HandleDisconnect(cell).cell;
            d.session.None? && !d.pending && (d.status.Some? ==> !Active(d.status.value))
            && forall r: RecordingId :: !ActiveRow(d.rows, r)
  {
    var d := HandleDisconnect(cell).cell;
    if cell.session.Some? { FinalizeKnown(cell); }
    forall r: RecordingId ensures !ActiveRow(d.rows, r) {
      assert ActiveRow(cell.rows, r) ==> cell.recordingId == Some(r);
    }
  }

  lemma StopKeeps(c: ChannelId, cell: Cell, env: Env)
    requires Agrees(cell)
    ensures var e := HandleStop(cell, env);
            Keeps(c, cell, e, env)
            && e.cell.status in {cell.status, Some(Idle), Some(Connected)}
            && e.cell.status !in {Some(Stopping), Some(Starting)}
            && (forall r: RecordingId :: !ActiveRow(e.cell.rows, r))
  {
    OneActive(cell);
    if cell.session.Some? { FinalizeKnown(cell); }
    forall r: RecordingId ensures !ActiveRow(HandleStop(cell, env).cell.rows, r) {
      assert ActiveRow(cell.rows, r) ==> cell.recordingId == Some(r);
    }
  }

  lemma StartKeeps(c: ChannelId, cell: Cell, env: Env)
    requires Agrees(cell) && env.newId !in cell.rows
    ensures var e := HandleStart(c, cell, env);
            Keeps(c, cell, e, env)
            && (e.cell.status == cell.status
                || e.cell.status in {Some(Recording), Some(Connected), Some(Error)})
            && (e.cell.status == Some(Starting) ==>
                  e.cell.pending && e.cell.session.Some? && !e.cell.session.value.connected)
  {
  }

  lemma ConnectKeeps(c: ChannelId, cell: Cell, full: bool, env: Env)
    requires Agrees(cell) && env.newId !in cell.rows
    requires cell.session.None? || cell.session.value.connected
    ensures var e := HandleConnect(c, cell, full, env);
            Keeps(c, cell, e, env) && e.cell.status != Some(Connecting)
            && (full ==> (e.cell.session.Some? ==> cell.session.Some?))
            && (e.cell.status != cell.status ==> e.cell.status in {Some(Connected), Some(Recording), Some(Error)})
            && (e.cell.status == Some(Starting) ==>
                  cell.status == Some(Starting)
                  && (!cell.pending || (e.cell.pending && e.cell.session.Some? && !e.cell.session.value.connected)))
  {
    var nested := env.(alive := env.survives);
    if cell.session.Some? {
      var up := cell.(status := if cell.status == Some(Connecting) then Some(Connected) else cell.status);
      assert Agrees(up);
      StartKeeps(c, up, nested);
    } else if cell.status.Some? {
      var up := cell.(
        status := if cell.status == Some(Connecting) then Some(Connected) else cell.status,
        session := Some(Session(true, false)));
      assert Agrees(up);
      StartKeeps(c, up, nested);
    }
  }

  /** One tick's op for a channel consumes its queued disconnect, stop and start
      jobs; what is left of its status is backed by the jobs that remain. */
  lemma ApplyBacked(c: ChannelId, cell: Cell, disconnect: bool, stop: bool, start: bool, left: Jobs, env: Env)
    requires Agrees(cell) && env.newId !in cell.rows
    requires Backed(cell, Jobs(left.connect, left.disconnect || disconnect, left.stop || stop, left.start || start))
    ensures var e := Apply(c, cell, Resolve(cell.status, disconnect, stop, start), env);
            Keeps(c, cell, e, env) && Backed(e.cell, left)
  {
    DisconnectKeeps(c, cell, env);
    StopKeeps(c, cell, env);
    StartKeeps(c, cell, env);
  }
}
