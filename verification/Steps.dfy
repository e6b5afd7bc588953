/** The protocol's invariant, kept by every step: the books, the agreement of every
    channel's rows, maps and status, and no intent without its job. */
module Steps {
  import opened ControlPlane
  import opened Handlers
  import opened Protocol
  import opened Books

  ghost predicate InOrder(w: World, c: ChannelId) {
    Agrees(At(w.core, c)) && Backed(At(w.core, c), JobsOf(w, c))
  }

  ghost predicate Invariant(capacity: nat, w: World) {
    InBooks(capacity, w) && forall c :: InOrder(w, c)
  }

  lemma OrderOf(capacity: nat, w: World, c: ChannelId)
    requires Invariant(capacity, w)
    ensures Agrees(At(w.core, c)) && Backed(At(w.core, c), JobsOf(w, c))
  {
    assert InOrder(w, c);
  }

  /** What the agreement of its channel says of a row in progress. */
  lemma RowAgrees(k: Core, r: RecordingId)
    requires r in k.recordings && k.recordings[r].status == InProgress && Agrees(At(k, k.recordings[r].channel))
    ensures var c := k.recordings[r].channel;
      && c in k.recordingIds && k.recordingIds[c] == r
      && c in k.sessions && k.sessions[c].recording
      && (c in k.channels ==> k.channels[c] in {Recording, Stopping, Disconnecting})
  {
    assert ActiveRow(At(k, k.recordings[r].channel).rows, r);
  }

  lemma IdAgrees(k: Core, c: ChannelId)
    requires c in k.recordingIds && Tracked(At(k, c))
    ensures k.recordingIds[c] in k.recordings
    ensures k.recordings[k.recordingIds[c]].status == InProgress && k.recordings[k.recordingIds[c]].channel == c
  {
  }

  /** What a tick does to one channel: the heartbeat, then its own op. */
  lemma TickAt(capacity: nat, w: World, c: ChannelId, envs: ChannelId -> Env)
    requires w.core.recordings.Keys <= w.issued && Enabled(w, Tick(envs))
    ensures var cell := Heartbeat(At(w.core, c)).cell;
            At(Next(capacity, w, Tick(envs)).core, c)
            == if Wanted(w.batch, c) then DrainEffect(c, cell, w.batch, envs(c)).cell else cell
  {
    OrderSound(w.batch);
    RunOpsAt(Reap(w.core), Order(w.batch), w.batch, envs);
    ReapAt(w.core, c);
  }

  /** The jobs a tick leaves, and the ones it consumes. */
  lemma TickJobs(capacity: nat, w: World, envs: ChannelId -> Env, c: ChannelId)
    ensures var left := JobsOf(Next(capacity, w, Tick(envs)), c); var b := w.batch;
      JobsOf(w, c) == Jobs(left.connect, left.disconnect || For(c) in b.disconnect,
                           left.stop || For(c) in b.stop, left.start || For(c) in b.start)
  {
  }

  /** A heartbeat and one tick's op, on a channel in order. */
  lemma TickCell(c: ChannelId, cell: Cell, b: Batch, left: Jobs, env: Env)
    requires Agrees(cell) && env.newId !in cell.rows
    requires Backed(cell, Jobs(left.connect, left.disconnect || For(c) in b.disconnect,
                               left.stop || For(c) in b.stop, left.start || For(c) in b.start))
    ensures var after := DrainEffect(c, Heartbeat(cell).cell, b, env).cell; Agrees(after) && Backed(after, left)
  {
    HeartbeatKeeps(c, cell, env);
    ApplyBacked(c, Heartbeat(cell).cell, For(c) in b.disconnect, For(c) in b.stop, For(c) in b.start, left, env);
  }

  lemma TickOrder(capacity: nat, w: World, envs: ChannelId -> Env, c: ChannelId)
    requires Invariant(capacity, w) && Enabled(w, Tick(envs))
    ensures InOrder(Next(capacity, w, Tick(envs)), c)
  {
    OrderOf(capacity, w, c);
    OrderSound(w.batch);
    TickAt(capacity, w, c, envs);
    TickJobs(capacity, w, envs, c);
    if Wanted(w.batch, c) {
      RowsWithin(w.core, c);
      TickCell(c, At(w.core, c), w.batch, JobsOf(Next(capacity, w, Tick(envs)), c), envs(c));
    } else {
      HeartbeatKeeps(c, At(w.core, c), envs(c));
    }
  }

  lemma TickKeeps(capacity: nat, w: World, envs: ChannelId -> Env)
    requires Invariant(capacity, w) && Enabled(w, Tick(envs))
    ensures Invariant(capacity, Next(capacity, w, Tick(envs)))
  {
    TickBooks(capacity, w, envs);
    forall c ensures InOrder(Next(capacity, w, Tick(envs)), c) { TickOrder(capacity, w, envs, c); }
  }

  lemma RunConnectJobs(capacity: nat, w: World, env: Env, c: ChannelId)
    requires Enabled(w, RunConnect(env)) && w.handed[0] != For(c)
    ensures JobsOf(Next(capacity, w, RunConnect(env)), c) == JobsOf(w, c)
  {
    assert w.handed == [w.handed[0]] + w.handed[1..];
  }

  lemma RunConnectKeeps(capacity: nat, w: World, env: Env)
    requires Invariant(capacity, w) && Enabled(w, RunConnect(env))
    ensures Invariant(capacity, Next(capacity, w, RunConnect(env)))
  {
    var w', job := Next(capacity, w, RunConnect(env)), w.handed[0];
    RunConnectBooks(capacity, w, env);
    forall d | job != For(d) ensures InOrder(w', d) {
      assert InOrder(w, d);
      RunConnectJobs(capacity, w, env, d);
      if job.For? { ConnectElsewhere(capacity, w, env, d); }
    }
    if job.For? { ConnectOrder(capacity, w, env); }
  }

  lemma ConnectOrder(capacity: nat, w: World, env: Env)
    requires Invariant(capacity, w) && Enabled(w, RunConnect(env)) && w.handed[0].For?
    ensures InOrder(Next(capacity, w, RunConnect(env)), w.handed[0].channel)
  {
    var c := w.handed[0].channel;
    var cell, full := At(w.core, c), |w.core.sessions| >= capacity;
    assert InOrder(w, c);
    assert w.handed == [w.handed[0]] + w.handed[1..];
    RowsWithin(w.core, c);
    ConnectKeeps(c, cell, full, env);
    PutLedger(w.core, w.issued, c, HandleConnect(c, cell, full, env), env);
  }

  lemma ConnectElsewhere(capacity: nat, w: World, env: Env, d: ChannelId)
    requires InBooks(capacity, w) && Enabled(w, RunConnect(env)) && w.handed[0].For? && w.handed[0].channel != d
    ensures At(Next(capacity, w, RunConnect(env)).core, d) == At(w.core, d)
  {
    var c := w.handed[0].channel;
    var cell, full := At(w.core, c), |w.core.sessions| >= capacity;
    RowsWithin(w.core, c);
    ConnectPersists(c, cell, full, env);
    PutLedger(w.core, w.issued, c, HandleConnect(c, cell, full, env), env);
  }

  lemma QueueingKeeps(capacity: nat, w: World, a: Action)
    requires Invariant(capacity, w) && Enabled(w, a)
    requires a.Publish? || a.Inject? || a.HandOver?
    ensures Invariant(capacity, Next(capacity, w, a))
  {
    var w' := Next(capacity, w, a);
    assert w'.core == w.core && w'.issued == w.issued;
    forall c ensures InOrder(w', c) {
      assert InOrder(w, c);
      QueueingJobs(capacity, w, a, ConnectJob, c);
      QueueingJobs(capacity, w, a, DisconnectJob, c);
      QueueingJobs(capacity, w, a, StopJob, c);
      QueueingJobs(capacity, w, a, StartJob, c);
    }
  }

  lemma AcceptJobs(capacity: nat, w: World, kind: Kind, c: ChannelId, d: ChannelId)
    requires Enabled(w, Accept(kind, c))
    ensures var j, j' := JobsOf(w, d), JobsOf(Next(capacity, w, Accept(kind, c)), d);
      && (j.connect ==> j'.connect) && (j.disconnect ==> j'.disconnect)
      && (j.stop ==> j'.stop) && (j.start ==> j'.start)
    ensures Queued(Next(capacity, w, Accept(kind, c)), kind, c)
  {
  }

  /** API requests and the environment: one channel's status or session flag. */
  lemma AcceptKeeps(capacity: nat, w: World, kind: Kind, c: ChannelId)
    requires Invariant(capacity, w) && Enabled(w, Accept(kind, c))
    ensures Invariant(capacity, Next(capacity, w, Accept(kind, c)))
  {
    var w' := Next(capacity, w, Accept(kind, c));
    AcceptBooks(capacity, w, kind, c);
    forall d ensures InOrder(w', d) {
      assert InOrder(w, d);
      AcceptJobs(capacity, w, kind, c, d);
      if d != c { assert At(w'.core, d) == At(w.core, d); }
    }
  }

  lemma SameQueues(w: World, w': World, d: ChannelId)
    requires w'.connectQ == w.connectQ && w'.batch == w.batch && w'.handed == w.handed && w'.outbox == w.outbox
    ensures JobsOf(w', d) == JobsOf(w, d)
  {
  }

  lemma DieKeeps(capacity: nat, w: World, c: ChannelId)
    requires Invariant(capacity, w) && Enabled(w, Die(c))
    ensures Invariant(capacity, Next(capacity, w, Die(c)))
  {
    var w' := Next(capacity, w, Die(c));
    DieBooks(capacity, w, c);
    forall d ensures InOrder(w', d) {
      assert InOrder(w, d);
      SameQueues(w, w', d);
    }
  }

  /** Creating a channel; deleting one, or a recording, whatever sessions there are. */
  lemma TableKeeps(capacity: nat, w: World, a: Action)
    requires Invariant(capacity, w) && Enabled(w, a)
    requires a.CreateChannel? || a.DeleteChannel? || a.DeleteRecording?
    ensures Invariant(capacity, Next(capacity, w, a))
  {
    var w' := Next(capacity, w, a);
    TableBooks(capacity, w, a);
    forall d ensures InOrder(w', d) {
      assert InOrder(w, d);
      SameQueues(w, w', d);
      TableRows(capacity, w, a, d);
    }
  }

  /** Every step of the protocol keeps the invariant. */
  lemma StepKeeps(capacity: nat, w: World, a: Action)
    requires Invariant(capacity, w) && Enabled(w, a)
    ensures Invariant(capacity, Next(capacity, w, a))
  {
    match a
    case Accept(kind, c) => AcceptKeeps(capacity, w, kind, c);
    case RunConnect(env) => RunConnectKeeps(capacity, w, env);
    case Tick(envs) => TickKeeps(capacity, w, envs);
    case Die(c) => DieKeeps(capacity, w, c);
    case Publish(_) => QueueingKeeps(capacity, w, a);
    case Inject(_) => QueueingKeeps(capacity, w, a);
    case HandOver => QueueingKeeps(capacity, w, a);
    case _ => TableKeeps(capacity, w, a);
  }
}
