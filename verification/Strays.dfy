/** Recordings a crash leaves in progress with nobody to remember them: which ones
    they are, and what becomes of each over the rest of the worker's life. */
module Strays {
  import opened Common
  import opened ControlPlane
  import opened Handlers
  import opened Protocol
  import opened Books
  import opened Steps
  import opened Runs
  import opened Recovery
  import opened Lifecycle

  /** A row in progress that the worker does not remember. */
  ghost predicate Stray(cell: Cell, r: RecordingId) {
    ActiveRow(cell.rows, r) && cell.recordingId != Some(r)
  }

  /** A channel that was recording when the worker crashed: its row is in progress
      and nothing in memory knows it. */
  ghost predicate LeftBehind(cell: Cell, r: RecordingId) {
    && cell.session.None? && cell.recordingId.None? && !cell.pending
    && (forall q: RecordingId :: ActiveRow(cell.rows, q) <==> q == r)
    && cell.status in {None, Some(Recording), Some(Stopping), Some(Disconnecting)}
  }

  // ------------------------------------------------------- where they come from

  /** After crash and startup a row is in progress exactly when the worker was
      recording it and its channel had not been claimed or was deleted meanwhile;
      and then that channel is left behind. */
  lemma LeftBehindIff(capacity: nat, w: World, r: RecordingId)
    requires Invariant(capacity, w) && r in w.core.recordings
    ensures var c := w.core.recordings[r].channel; var after := At(Restart(w).core, c);
      && (ActiveRow(after.rows, r) <==>
            c in w.core.recordingIds && w.core.recordingIds[c] == r && (c !in w.core.claimed || c !in w.core.channels))
      && (ActiveRow(after.rows, r) ==> LeftBehind(after, r) && !Spared(w, c))
  {
    var c := w.core.recordings[r].channel;
    OrderOf(capacity, w, c);
    RestartAt(w, c);
    var before, bare := At(w.core, c), At(Crash(w).core, c);
    assert bare == before.(session := None, recordingId := None, pending := false);
    assert ActiveRow(before.rows, r) <==> before.recordingId == Some(r);
    if Orphan(Crash(w).core, c) {
      ClaimedSettles(w.core, Crash(w).core, c);
    }
  }

  /** A start held for a channel without a session and served by the connect job
      that follows is not claimed yet: a crash at that point leaves it behind. */
  lemma HeldStartLeftBehind(capacity: nat, w: World, c: ChannelId, env: Env, envs: ChannelId -> Env)
    requires Invariant(capacity, w)
    requires c in w.core.channels && w.core.channels[c] == Connecting && c !in w.core.sessions
    requires w.handed != [] && w.handed[0] == For(c) && |w.core.sessions| < capacity
    requires For(c) in w.batch.start && For(c) !in w.batch.stop && For(c) !in w.batch.disconnect
    requires Working(env) && Working(envs(c)) && env.newId !in w.issued
    requires FreshFor(Order(w.batch), envs, w.issued + {env.newId})
    ensures Run(capacity, w, [Tick(envs), RunConnect(env)])
    ensures exists r :: LeftBehind(At(Restart(Exec(capacity, w, [Tick(envs), RunConnect(env)])).core, c), r)
  {
    var actions := [Tick(envs), RunConnect(env)];
    TickThenConnect(capacity, w, c, env, envs);
    RunKeeps(capacity, w, actions);
    ExecTwo(capacity, w, Tick(envs), RunConnect(env));
    TickClaim(capacity, w, envs);
    ConnectClaim(capacity, Next(capacity, w, Tick(envs)), env);
    var w2 := Exec(capacity, w, actions);
    var r, now :| RecordingNow(At(w.core, c), At(w2.core, c), c, r, now);
    UnclaimedLeftBehind(capacity, w2, c, r);
  }

  lemma ConnectClaim(capacity: nat, w: World, env: Env)
    ensures Next(capacity, w, RunConnect(env)).core.claimed == w.core.claimed
  {
  }

  lemma UnclaimedLeftBehind(capacity: nat, w: World, c: ChannelId, r: RecordingId)
    requires Invariant(capacity, w) && At(w.core, c).recordingId == Some(r) && c !in w.core.claimed
    ensures LeftBehind(At(Restart(w).core, c), r)
  {
    OrderOf(capacity, w, c);
    IdAgrees(w.core, c);
    LeftBehindIff(capacity, w, r);
  }

  // -------------------------------------------------------- what becomes of them

  /** The heartbeat reaps a dead session of the channel and this row is the newest. */
  ghost predicate BeatCloses(cell: Cell, r: RecordingId) {
    cell.session.Some? && !cell.session.value.connected && Newest(cell.rows) == Some(r)
  }

  /** A stop finds no session and this row is the newest. */
  ghost predicate OpCloses(cell: Cell, op: Op, r: RecordingId) {
    cell.session.None? && op == Stop && Newest(cell.rows) == Some(r)
  }

  ghost predicate TickCloses(c: ChannelId, cell: Cell, b: Batch, r: RecordingId) {
    var beat := Heartbeat(cell).cell;
    BeatCloses(cell, r)
    || OpCloses(beat, Resolve(beat.status, For(c) in b.disconnect, For(c) in b.stop, For(c) in b.start), r)
  }

  /** The turns after which a stray row is no longer in progress. */
  ghost predicate Closes(w: World, turn: Turn, c: ChannelId, r: RecordingId) {
    match turn
    case Act(a) =>
      (a.Tick? && TickCloses(c, At(w.core, c), w.batch, r)) || (a.DeleteChannel? && a.channel == c)
    case Crashes => false
    case StartsUp => Orphan(w.core, c) && Newest(At(w.core, c).rows) == Some(r)
  }

  /** Deleted, or failed; its identifier is spent. */
  ghost predicate Lost(w: World, r: RecordingId) {
    Final(w, r, Failed)
  }

  lemma FailActiveAt(rows: Rows, r: RecordingId)
    requires ActiveRow(rows, r)
    ensures r in FailActive(rows)
    ensures FailActive(rows)[r] == if Newest(rows) == Some(r) then rows[r].(status := Failed) else rows[r]
  {
  }

  /** The row is as it was, unless `closed`, and then it is failed. */
  ghost predicate Left(before: Cell, after: Cell, r: RecordingId, closed: bool) {
    && r in before.rows && r in after.rows && after.recordingId != Some(r)
    && after.rows[r] == if closed then before.rows[r].(status := Failed) else before.rows[r]
  }

  lemma BeatLeaves(cell: Cell, r: RecordingId)
    requires Stray(cell, r)
    ensures Left(cell, Heartbeat(cell).cell, r, BeatCloses(cell, r))
  {
    FailActiveAt(cell.rows, r);
  }

  lemma ApplyLeaves(c: ChannelId, cell: Cell, op: Op, env: Env, r: RecordingId)
    requires Tracked(cell) && env.newId !in cell.rows
    requires r in cell.rows && cell.recordingId != Some(r)
    requires !ActiveRow(cell.rows, r) ==> !OpCloses(cell, op, r)
    ensures Left(cell, Apply(c, cell, op, env).cell, r, OpCloses(cell, op, r))
  {
    if cell.session.Some? { FinalizeKnown(cell); }
  }

  lemma ConnectLeaves(c: ChannelId, cell: Cell, full: bool, env: Env, r: RecordingId)
    requires Tracked(cell) && env.newId !in cell.rows && Stray(cell, r)
    ensures Left(cell, HandleConnect(c, cell, full, env).cell, r, false)
  {
  }

  lemma TickLeaves(capacity: nat, w: World, envs: ChannelId -> Env, c: ChannelId, r: RecordingId)
    requires InBooks(capacity, w) && Enabled(w, Tick(envs)) && Stray(At(w.core, c), r)
    ensures Left(At(w.core, c), At(Next(capacity, w, Tick(envs)).core, c), r, TickCloses(c, At(w.core, c), w.batch, r))
  {
    var cell, b := At(w.core, c), w.batch;
    var beat := Heartbeat(cell).cell;
    var op := Resolve(beat.status, For(c) in b.disconnect, For(c) in b.stop, For(c) in b.start);
    TickAt(capacity, w, c, envs);
    RowsWithin(w.core, c);
    OrderSound(b);
    BeatLeaves(cell, r);
    HeartbeatPersists(c, cell, envs(c));
    if Wanted(b, c) {
      ApplyLeaves(c, beat, op, envs(c), r);
    }
  }

  lemma RunConnectLeaves(capacity: nat, w: World, env: Env, c: ChannelId, r: RecordingId)
    requires InBooks(capacity, w) && Enabled(w, RunConnect(env)) && Stray(At(w.core, c), r)
    ensures Left(At(w.core, c), At(Next(capacity, w, RunConnect(env)).core, c), r, false)
  {
    if w.handed[0] == For(c) {
      RowsWithin(w.core, c);
      ConnectAt(capacity, w, env);
      ConnectLeaves(c, At(w.core, c), |w.core.sessions| >= capacity, env, r);
    } else if w.handed[0].For? {
      ConnectElsewhere(capacity, w, env, c);
    }
  }

  /** Requests, queues, dying sessions and deletions. */
  lemma OtherLeaves(capacity: nat, w: World, a: Action, c: ChannelId, r: RecordingId)
    requires Enabled(w, a) && Stray(At(w.core, c), r) && !a.Tick? && !a.RunConnect?
    ensures var k := Next(capacity, w, a).core;
            if a.DeleteChannel? && a.channel == c then r !in k.recordings else Stray(At(k, c), r)
  {
    if a.CreateChannel? || a.DeleteChannel? || a.DeleteRecording? {
      TableRows(capacity, w, a, c);
    }
  }

  lemma StartupLeaves(k: Core, c: ChannelId, r: RecordingId)
    requires Stray(At(k, c), r)
    ensures Left(At(k, c), At(Startup(k), c), r, Orphan(k, c) && Newest(At(k, c).rows) == Some(r))
  {
    ReconcileAt(k, c);
    assert At(Startup(k), c) == At(Reconcile(k), c);
    FailActiveAt(At(k, c).rows, r);
  }

  /** One turn: exactly the closing ones end it, and none completes it. */
  lemma TurnLeaves(capacity: nat, w: World, turn: Turn, c: ChannelId, r: RecordingId)
    requires InBooks(capacity, w) && Possible(w, turn) && Stray(At(w.core, c), r)
    ensures var w' := Take(capacity, w, turn);
            if Closes(w, turn, c, r) then Lost(w', r) else Stray(At(w'.core, c), r)
  {
    TurnBooks(capacity, w, turn);
    match turn
    case Crashes =>
    case StartsUp => StartupLeaves(w.core, c, r);
    case Act(a) =>
      if a.Tick? {
        TickLeaves(capacity, w, a.envs, c, r);
      } else if a.RunConnect? {
        RunConnectLeaves(capacity, w, a.env, c, r);
      } else {
        OtherLeaves(capacity, w, a, c, r);
      }
  }

  /** Some turn closed it. */
  ghost predicate Closed(capacity: nat, w: World, turns: seq<Turn>, c: ChannelId, r: RecordingId) {
    exists i | 0 <= i < |turns| :: Closes(After(capacity, w, turns[..i]), turns[i], c, r)
  }

  lemma ClosedSnoc(capacity: nat, w: World, turns: seq<Turn>, c: ChannelId, r: RecordingId)
    requires turns != []
    ensures var n := |turns| - 1;
            Closed(capacity, w, turns, c, r)
            <==> Closed(capacity, w, turns[..n], c, r) || Closes(After(capacity, w, turns[..n]), turns[n], c, r)
  {
    var n := |turns| - 1;
    var init := turns[..n];
    forall i | 0 <= i < n ensures init[..i] == turns[..i] && init[i] == turns[i] {}
    if i :| 0 <= i < n && Closes(After(capacity, w, init[..i]), init[i], c, r) {
      assert Closes(After(capacity, w, turns[..i]), turns[i], c, r);
    }
    if i :| 0 <= i <= n && Closes(After(capacity, w, turns[..i]), turns[i], c, r) {
      assert i < n ==> Closes(After(capacity, w, init[..i]), init[i], c, r);
    }
  }

  /** Over any life, crashes and startups included, a stray row stays in progress
      exactly until a turn that closes it, and then it is failed, or deleted with its
      channel: no recording it belongs to is ever completed. */
  lemma {:induction false} StrayUntilClosed(capacity: nat, w: World, turns: seq<Turn>, c: ChannelId, r: RecordingId)
    requires InBooks(capacity, w) && Life(capacity, w, turns) && Stray(At(w.core, c), r)
    ensures var after := After(capacity, w, turns);
            if Closed(capacity, w, turns, c, r) then Lost(after, r) else Stray(At(after.core, c), r)
  {
    if turns != [] {
      ClosedSnoc(capacity, w, turns, c, r);
      var n := |turns| - 1;
      var init := turns[..n];
      var mid := After(capacity, w, init);
      StrayUntilClosed(capacity, w, init, c, r);
      LifeBooks(capacity, w, init);
      TurnBooks(capacity, mid, turns[n]);
      if Stray(At(mid.core, c), r) {
        TurnLeaves(capacity, mid, turns[n], c, r);
      }
    }
  }

  // ---------------------------------------------------------- stop, disconnect

  /** A stop handled before anything else reaches the channel fails what was left
      behind and leaves nothing in progress. */
  lemma StopCloses(capacity: nat, w: World, c: ChannelId, r: RecordingId, envs: ChannelId -> Env)
    requires InBooks(capacity, w) && Enabled(w, Tick(envs)) && LeftBehind(At(w.core, c), r)
    requires Resolve(At(w.core, c).status, For(c) in w.batch.disconnect, For(c) in w.batch.stop, For(c) in w.batch.start) == Stop
    ensures var after := At(Next(capacity, w, Tick(envs)).core, c);
      && r in after.rows && after.rows[r].status == Failed && forall q: RecordingId :: !ActiveRow(after.rows, q)
  {
    TickAt(capacity, w, c, envs);
    FailActiveClears(At(w.core, c).rows, r);
  }

  /** A disconnect does not: the channel is idle with its row still in progress, and
      of all requests only a connect is allowed, or the deletion of the channel. */
  lemma DisconnectLeaves(capacity: nat, w: World, c: ChannelId, r: RecordingId, envs: ChannelId -> Env)
    requires InBooks(capacity, w) && Enabled(w, Tick(envs)) && LeftBehind(At(w.core, c), r)
    requires c in w.core.channels && For(c) in w.batch.disconnect
    ensures var w' := Next(capacity, w, Tick(envs));
      && Stray(At(w'.core, c), r) && c in w'.core.channels && w'.core.channels[c] == Idle
      && (forall kind :: Enabled(w', Accept(kind, c)) <==> kind == ConnectJob)
      && Enabled(w', DeleteChannel(c)) && !Enabled(w', DeleteRecording(r))
  {
    TickAt(capacity, w, c, envs);
    IdleStray(Next(capacity, w, Tick(envs)), c, r);
  }

  lemma IdleStray(w: World, c: ChannelId, r: RecordingId)
    requires Stray(At(w.core, c), r) && At(w.core, c).status == Some(Idle)
    ensures c in w.core.channels && w.core.channels[c] == Idle
    ensures forall kind :: Enabled(w, Accept(kind, c)) <==> kind == ConnectJob
    ensures Enabled(w, DeleteChannel(c)) && !Enabled(w, DeleteRecording(r))
  {
  }
}
