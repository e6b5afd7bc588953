/** What every run of the protocol guarantees. */
module Runs {
  import opened Common
  import opened ControlPlane
  import opened Handlers
  import opened Protocol
  import opened Books
  import opened Steps

  /** A first start: no session and no recording yet; the queues may hold anything. */
  ghost predicate Initial(w: World) {
    && (forall c :: c in w.core.channels ==> !Active(w.core.channels[c]))
    && w.core.recordings == map[] && w.core.events == [] && w.core.claimed == {}
    && w.core.sessions == map[] && w.core.recordingIds == map[] && w.core.pending == {}
  }

  ghost predicate Run(capacity: nat, w: World, actions: seq<Action>) {
    actions == [] ||
    (Run(capacity, w, actions[..|actions| - 1])
     && Enabled(Exec(capacity, w, actions[..|actions| - 1]), actions[|actions| - 1]))
  }

  ghost function Exec(capacity: nat, w: World, actions: seq<Action>): World {
    if actions == [] then w
    else Next(capacity, Exec(capacity, w, actions[..|actions| - 1]), actions[|actions| - 1])
  }

  lemma InitialHolds(capacity: nat, w: World)
    requires Initial(w)
    ensures Invariant(capacity, w)
  {
  }

  lemma {:induction false} RunKeeps(capacity: nat, w: World, actions: seq<Action>)
    requires Invariant(capacity, w) && Run(capacity, w, actions)
    ensures Invariant(capacity, Exec(capacity, w, actions))
  {
    if actions != [] {
      RunKeeps(capacity, w, actions[..|actions| - 1]);
      StepKeeps(capacity, Exec(capacity, w, actions[..|actions| - 1]), actions[|actions| - 1]);
    }
  }

  // -------------------------------------------------- recording agreement

  /** In every reachable state: at most one row in progress per channel, the one
      the worker remembers, its session recording, its status saying so; so no
      idle or failed channel has one, and the session count is within capacity. */
  lemma RecordingAgreement(capacity: nat, w0: World, actions: seq<Action>)
    requires Initial(w0) && Run(capacity, w0, actions)
    ensures var k := Exec(capacity, w0, actions).core;
      && (forall r :: r in k.recordings && k.recordings[r].status == InProgress ==>
            var c := k.recordings[r].channel;
            && c in k.recordingIds && k.recordingIds[c] == r
            && c in k.sessions && k.sessions[c].recording
            && (c in k.channels ==> k.channels[c] in {Recording, Stopping, Disconnecting}))
      && (forall c :: c in k.recordingIds ==>
            k.recordingIds[c] in k.recordings && k.recordings[k.recordingIds[c]].status == InProgress
            && k.recordings[k.recordingIds[c]].channel == c)
      && |k.sessions| <= capacity
  {
    InitialHolds(capacity, w0);
    RunKeeps(capacity, w0, actions);
    var k := Exec(capacity, w0, actions).core;
    forall r | r in k.recordings && k.recordings[r].status == InProgress
      ensures var c := k.recordings[r].channel;
        && c in k.recordingIds && k.recordingIds[c] == r
        && c in k.sessions && k.sessions[c].recording
        && (c in k.channels ==> k.channels[c] in {Recording, Stopping, Disconnecting})
    {
      OrderOf(capacity, Exec(capacity, w0, actions), k.recordings[r].channel);
      RowAgrees(k, r);
    }
    forall c | c in k.recordingIds
      ensures k.recordingIds[c] in k.recordings && k.recordings[k.recordingIds[c]].status == InProgress
              && k.recordings[k.recordingIds[c]].channel == c
    {
      OrderOf(capacity, Exec(capacity, w0, actions), c);
      IdAgrees(k, c);
    }
  }

  /** The API's delete guard, which only looks at the status, never removes a
      recording in progress. */
  lemma DeleteIsSafe(capacity: nat, w0: World, actions: seq<Action>, c: ChannelId)
    requires Initial(w0) && Run(capacity, w0, actions)
    requires var k := Exec(capacity, w0, actions).core; c in k.channels && !Active(k.channels[c])
    ensures var k := Exec(capacity, w0, actions).core;
            forall r :: r in k.recordings && r !in RowsNotOf(k.recordings, c) ==> k.recordings[r].status != InProgress
  {
    RecordingAgreement(capacity, w0, actions);
  }

  // ----------------------------------------------------- no stranded intent

  predicate NoConnectWork(w: World) {
    w.outbox == multiset{} && w.connectQ == [] && w.handed == []
  }

  /** Once every accepted job has been published and the connect jobs handled, two
      ticks leave no channel in a transitional status; the first alone leaves at
      most starts held by sessions that died under it. */
  lemma QuiescenceSettles(capacity: nat, w: World, first: ChannelId -> Env, second: ChannelId -> Env)
    requires Invariant(capacity, w) && NoConnectWork(w) && Enabled(w, Tick(first))
    ensures var w1 := Next(capacity, w, Tick(first));
            var w2 := Next(capacity, w1, Tick(second));
      && Enabled(w1, Tick(second))
      && (forall c :: c in w1.core.channels && Transitional(w1.core.channels[c]) ==>
            w1.core.channels[c] == Starting && Dead(w1.core, c))
      && (forall c :: c in w2.core.channels ==> !Transitional(w2.core.channels[c]))
  {
    var w1 := Next(capacity, w, Tick(first));
    TickKeeps(capacity, w, first);
    forall c | c in w1.core.channels && Transitional(w1.core.channels[c])
      ensures w1.core.channels[c] == Starting && Dead(w1.core, c)
    {
      OrderOf(capacity, w1, c);
      StrandedStart(w1, c);
    }
    EmptyTick(capacity, w1, second);
  }

  /** With nothing queued what is left is a start held by a dead session. */
  lemma StrandedStart(w: World, c: ChannelId)
    requires NoConnectWork(w) && w.batch == Batch([], [], []) && Backed(At(w.core, c), JobsOf(w, c))
    requires c in w.core.channels && Transitional(w.core.channels[c])
    ensures w.core.channels[c] == Starting && Dead(w.core, c)
  {
    assert JobsOf(w, c) == Jobs(false, false, false, false);
  }

  /** With nothing queued a tick is its heartbeat. */
  lemma EmptyTick(capacity: nat, w: World, envs: ChannelId -> Env)
    requires w.batch == Batch([], [], [])
    ensures Enabled(w, Tick(envs)) && Next(capacity, w, Tick(envs)).core == Reap(w.core)
  {
  }

  /** In a reachable state a transitional status always has its job on the way,
      except a start held by a dead session. */
  lemma NoStrandedIntent(capacity: nat, w0: World, actions: seq<Action>, c: ChannelId)
    requires Initial(w0) && Run(capacity, w0, actions)
    requires c in Exec(capacity, w0, actions).core.channels
    ensures var w := Exec(capacity, w0, actions);
            var st := w.core.channels[c];
      && (st == Connecting ==> Queued(w, ConnectJob, c))
      && (st == Disconnecting ==> Queued(w, DisconnectJob, c))
      && (st == Stopping ==> Queued(w, StopJob, c))
      && (st == Starting ==> Queued(w, StartJob, c) || (c in w.core.pending && Dead(w.core, c)))
  {
    InitialHolds(capacity, w0);
    RunKeeps(capacity, w0, actions);
    var w := Exec(capacity, w0, actions);
    OrderOf(capacity, w, c);
    BackedAt(w, c);
  }

  lemma BackedAt(w: World, c: ChannelId)
    requires c in w.core.channels && Backed(At(w.core, c), JobsOf(w, c))
    ensures var st := w.core.channels[c];
      && (st == Connecting ==> Queued(w, ConnectJob, c))
      && (st == Disconnecting ==> Queued(w, DisconnectJob, c))
      && (st == Stopping ==> Queued(w, StopJob, c))
      && (st == Starting ==> Queued(w, StartJob, c) || (c in w.core.pending && Dead(w.core, c)))
  {
  }

  // ------------------------------------------------------ disconnect recovers

  /** A tick that finds a disconnect job leaves its channel down: no session, no
      held start, nothing in progress, and no working status. */
  lemma TickDisconnects(capacity: nat, w: World, c: ChannelId, envs: ChannelId -> Env)
    requires Invariant(capacity, w) && Enabled(w, Tick(envs)) && For(c) in w.batch.disconnect
    ensures var k := Next(capacity, w, Tick(envs)).core;
      && c !in k.sessions && c !in k.pending && c !in k.recordingIds
      && (forall r :: r in k.recordings && k.recordings[r].channel == c ==> k.recordings[r].status != InProgress)
      && (c in w.core.channels <==> c in k.channels)
      && (c in k.channels ==>
            k.channels[c] == if !Active(w.core.channels[c]) then w.core.channels[c]
                             else if Dead(w.core, c) then Error else Idle)
  {
    TickAt(capacity, w, c, envs);
    OrderOf(capacity, w, c);
    DownAt(w.core, Next(capacity, w, Tick(envs)).core, c, envs(c));
  }

  /** A heartbeat and a disconnect, seen from the tables. */
  lemma DownAt(k: Core, after: Core, c: ChannelId, env: Env)
    requires Agrees(At(k, c)) && At(after, c) == HandleDisconnect(Heartbeat(At(k, c)).cell).cell
    ensures c !in after.sessions && c !in after.pending && c !in after.recordingIds
    ensures forall r :: r in after.recordings && after.recordings[r].channel == c ==> after.recordings[r].status != InProgress
    ensures c in k.channels <==> c in after.channels
    ensures c in after.channels ==>
              after.channels[c] == if !Active(k.channels[c]) then k.channels[c] else if Dead(k, c) then Error else Idle
  {
    var cell, beat := At(k, c), Heartbeat(At(k, c)).cell;
    HeartbeatKeeps(c, cell, env);
    DisconnectKeeps(c, beat, env);
    var down := At(after, c);
    forall r | r in after.recordings && after.recordings[r].channel == c ensures after.recordings[r].status != InProgress {
      assert r in down.rows && !ActiveRow(down.rows, r);
    }
    assert Lookup(after.sessions, c) == None && Lookup(after.recordingIds, c) == None;
    assert Lookup(after.channels, c) == down.status;
  }

  /** From any reachable state with an active status, an accepted and published
      disconnect followed by one tick brings the channel down. */
  lemma DisconnectRecovers(capacity: nat, w: World, c: ChannelId, envs: ChannelId -> Env)
    requires Invariant(capacity, w) && c in w.core.channels && Active(w.core.channels[c])
    requires var w2 := Next(capacity, Next(capacity, w, Accept(DisconnectJob, c)), Publish(Request(DisconnectJob, c)));
             Enabled(w2, Tick(envs))
    ensures Run(capacity, w, [Accept(DisconnectJob, c), Publish(Request(DisconnectJob, c)), Tick(envs)])
    ensures var k := Exec(capacity, w, [Accept(DisconnectJob, c), Publish(Request(DisconnectJob, c)), Tick(envs)]).core;
      && c in k.channels && k.channels[c] == (if Dead(w.core, c) then Error else Idle)
      && c !in k.sessions && c !in k.pending && c !in k.recordingIds
      && (forall r :: r in k.recordings && k.recordings[r].channel == c ==> k.recordings[r].status != InProgress)
  {
    var a, p, t := Accept(DisconnectJob, c), Publish(Request(DisconnectJob, c)), Tick(envs);
    ExecThree(capacity, w, a, p, t);
    var w1 := Next(capacity, w, a);
    var w2 := Next(capacity, w1, p);
    StepKeeps(capacity, w, a);
    StepKeeps(capacity, w1, p);
    assert For(c) in w2.batch.disconnect;
    assert Dead(w2.core, c) == Dead(w.core, c);
    TickDisconnects(capacity, w2, c, envs);
  }

  lemma ExecSnoc(capacity: nat, w: World, actions: seq<Action>, a: Action)
    ensures Exec(capacity, w, actions + [a]) == Next(capacity, Exec(capacity, w, actions), a)
    ensures Run(capacity, w, actions + [a]) <==> Run(capacity, w, actions) && Enabled(Exec(capacity, w, actions), a)
  {
  }

  lemma ExecTwo(capacity: nat, w: World, a: Action, b: Action)
    ensures Exec(capacity, w, [a, b]) == Next(capacity, Next(capacity, w, a), b)
    ensures Run(capacity, w, [a, b]) <==> Enabled(w, a) && Enabled(Next(capacity, w, a), b)
  {
    ExecSnoc(capacity, w, [], a);
    ExecSnoc(capacity, w, [a], b);
    assert [] + [a] == [a] && [a] + [b] == [a, b];
  }

  lemma ExecThree(capacity: nat, w: World, a: Action, b: Action, c: Action)
    ensures var w1 := Next(capacity, w, a); var w2 := Next(capacity, w1, b);
            Exec(capacity, w, [a, b, c]) == Next(capacity, w2, c)
            && (Run(capacity, w, [a, b, c]) <==> Enabled(w, a) && Enabled(w1, b) && Enabled(w2, c))
  {
    ExecTwo(capacity, w, a, b);
    ExecSnoc(capacity, w, [a, b], c);
    assert [a, b] + [c] == [a, b, c];
  }

  // ------------------------------------------------- auto-connect confluence

  /** The state both orders reach: a live recording session and one new row. */
  ghost predicate RecordingNow(before: Cell, after: Cell, c: ChannelId, r: RecordingId, now: int) {
    r !in before.rows
    && after == Cell(Some(Recording), before.rows[r := Row(c, InProgress, now)], Some(Session(true, true)), Some(r), false)
  }

  predicate Working(env: Env) {
    env.alive && env.connects && env.survives && env.starts == Acked
  }

  /** A start request on an idle channel queues a connect and a record start.
      Whichever the worker handles first, the channel ends recording, with one
      new row in progress and nothing held back. */
  lemma AutoConnectConfluent(capacity: nat, w: World, c: ChannelId, env: Env, envs: ChannelId -> Env)
    requires Invariant(capacity, w)
    requires c in w.core.channels && w.core.channels[c] == Connecting && !Dead(w.core, c)
    requires w.handed != [] && w.handed[0] == For(c) && |w.core.sessions| < capacity
    requires For(c) in w.batch.start && For(c) !in w.batch.stop && For(c) !in w.batch.disconnect
    requires Working(env) && Working(envs(c)) && env.newId !in w.issued
    requires FreshFor(Order(w.batch), envs, w.issued + {env.newId})
    ensures Run(capacity, w, [RunConnect(env), Tick(envs)]) && Run(capacity, w, [Tick(envs), RunConnect(env)])
    ensures exists r, now :: RecordingNow(At(w.core, c), At(Exec(capacity, w, [RunConnect(env), Tick(envs)]).core, c), c, r, now)
    ensures exists r, now :: RecordingNow(At(w.core, c), At(Exec(capacity, w, [Tick(envs), RunConnect(env)]).core, c), c, r, now)
  {
    ConnectThenTick(capacity, w, c, env, envs);
    TickThenConnect(capacity, w, c, env, envs);
  }

  /** A request and its publication, with nothing in between. */
  lemma RequestPublished(capacity: nat, w: World, kind: Kind, c: ChannelId)
    requires Invariant(capacity, w) && Enabled(w, Accept(kind, c))
    ensures var w1 := Next(capacity, w, Accept(kind, c));
            var w2 := Next(capacity, w1, Publish(Request(kind, c)));
      && Enabled(w1, Publish(Request(kind, c))) && Invariant(capacity, w2)
      && w2 == Push(w.(core := w.core.(channels := w.core.channels[c := Intent(kind, w.core.channels[c])])), kind, For(c))
  {
    var w1 := Next(capacity, w, Accept(kind, c));
    StepKeeps(capacity, w, Accept(kind, c));
    StepKeeps(capacity, w1, Publish(Request(kind, c)));
    assert w1.outbox - multiset{Request(kind, c)} == w.outbox;
  }

  /** The scheduler's start on an idle channel: it connects, then, the status
      read again, queues the record start.  Once the main loop has come to that
      connect job this is where `AutoConnectConfluent` begins. */
  lemma AutoConnectRequest(capacity: nat, w: World, c: ChannelId)
    requires Invariant(capacity, w) && c in w.core.channels && w.core.channels[c] == Idle
    ensures var w1 := Next(capacity, w, Accept(ConnectJob, c));
            var w2 := Next(capacity, w1, Publish(Request(ConnectJob, c)));
            var w3 := Next(capacity, w2, Accept(StartJob, c));
            var w4 := Next(capacity, w3, Publish(Request(StartJob, c)));
      && Enabled(w, Accept(ConnectJob, c)) && Enabled(w1, Publish(Request(ConnectJob, c)))
      && Enabled(w2, Accept(StartJob, c)) && Enabled(w3, Publish(Request(StartJob, c)))
      && Invariant(capacity, w4)
      && w4 == w.(core := w.core.(channels := w.core.channels[c := Connecting]),
                  connectQ := w.connectQ + [For(c)], batch := w.batch.(start := w.batch.start + [For(c)]))
  {
    var w1 := Next(capacity, w, Accept(ConnectJob, c));
    RequestPublished(capacity, w, ConnectJob, c);
    var w2 := Next(capacity, w1, Publish(Request(ConnectJob, c)));
    RequestPublished(capacity, w2, StartJob, c);
    assert w2.core.channels[c := Connecting] == w2.core.channels;
  }

  /** A tick on a channel that is not dead and only has a start queued. */
  lemma TickStarts(capacity: nat, w: World, c: ChannelId, envs: ChannelId -> Env)
    requires Invariant(capacity, w) && Enabled(w, Tick(envs)) && !Dead(w.core, c)
    requires For(c) in w.batch.start && For(c) !in w.batch.stop && For(c) !in w.batch.disconnect
    ensures At(Next(capacity, w, Tick(envs)).core, c) == HandleStart(c, At(w.core, c), envs(c)).cell
  {
    TickAt(capacity, w, c, envs);
    var cell := At(w.core, c);
    assert Heartbeat(cell).cell == cell;
    assert Resolve(cell.status, false, false, true) == Start;
    assert DrainEffect(c, cell, w.batch, envs(c)) == Apply(c, cell, Start, envs(c));
  }

  lemma ConnectAt(capacity: nat, w: World, env: Env)
    requires InBooks(capacity, w) && Enabled(w, RunConnect(env)) && w.handed[0].For?
    ensures var c := w.handed[0].channel;
            At(Next(capacity, w, RunConnect(env)).core, c)
            == HandleConnect(c, At(w.core, c), |w.core.sessions| >= capacity, env).cell
  {
    var c := w.handed[0].channel;
    var cell, full := At(w.core, c), |w.core.sessions| >= capacity;
    RowsWithin(w.core, c);
    ConnectPersists(c, cell, full, env);
    PutLedger(w.core, w.issued, c, HandleConnect(c, cell, full, env), env);
  }

  lemma DeadAt(k: Core, c: ChannelId)
    ensures Dead(k, c) <==> At(k, c).session.Some? && !At(k, c).session.value.connected
  {
  }

  lemma ConnectThenTick(capacity: nat, w: World, c: ChannelId, env: Env, envs: ChannelId -> Env)
    requires Invariant(capacity, w)
    requires c in w.core.channels && w.core.channels[c] == Connecting && !Dead(w.core, c)
    requires w.handed != [] && w.handed[0] == For(c) && |w.core.sessions| < capacity
    requires For(c) in w.batch.start && For(c) !in w.batch.stop && For(c) !in w.batch.disconnect
    requires Working(env) && Working(envs(c)) && env.newId !in w.issued
    requires FreshFor(Order(w.batch), envs, w.issued + {env.newId})
    ensures Run(capacity, w, [RunConnect(env), Tick(envs)])
    ensures exists r, now :: RecordingNow(At(w.core, c), At(Exec(capacity, w, [RunConnect(env), Tick(envs)]).core, c), c, r, now)
  {
    var w1 := Next(capacity, w, RunConnect(env));
    ExecTwo(capacity, w, RunConnect(env), Tick(envs));
    var cell := At(w.core, c);
    RowsWithin(w.core, c);
    OrderSound(w.batch);
    OrderOf(capacity, w, c);
    StepKeeps(capacity, w, RunConnect(env));
    ConnectedAt(capacity, w, c, env);
    TickStarts(capacity, w1, c, envs);
    ConnectThenStart(c, cell, env, envs(c));
  }

  /** The connect job of a channel that is not dead leaves it so. */
  lemma ConnectedAt(capacity: nat, w: World, c: ChannelId, env: Env)
    requires InBooks(capacity, w) && Enabled(w, RunConnect(env)) && w.handed[0] == For(c) && Working(env)
    requires |w.core.sessions| < capacity
    ensures var k := Next(capacity, w, RunConnect(env)).core;
            At(k, c) == HandleConnect(c, At(w.core, c), false, env).cell && !Dead(k, c)
  {
    ConnectAt(capacity, w, env);
    DeadAt(Next(capacity, w, RunConnect(env)).core, c);
    DeadAt(w.core, c);
  }

  /** Connected first, the start finds a session; a held start is served at once. */
  lemma ConnectThenStart(c: ChannelId, cell: Cell, env: Env, second: Env)
    requires env.newId !in cell.rows && second.newId !in cell.rows
    requires Agrees(cell) && cell.status == Some(Connecting) && Working(env) && Working(second)
    requires cell.session.None? || cell.session.value.connected
    ensures var after := HandleStart(c, HandleConnect(c, cell, false, env).cell, second).cell;
            if cell.pending then RecordingNow(cell, after, c, env.newId, env.now)
            else RecordingNow(cell, after, c, second.newId, second.now)
  {
  }

  /** The start is held, and the connect that follows serves it. */
  lemma StartThenConnect(c: ChannelId, cell: Cell, first: Env, env: Env)
    requires first.newId !in cell.rows && env.newId !in cell.rows
    requires Agrees(cell) && cell.status == Some(Connecting) && Working(first) && Working(env)
    requires cell.session.None? || cell.session.value.connected
    ensures var after := HandleConnect(c, HandleStart(c, cell, first).cell, false, env).cell;
            if cell.session.None? then RecordingNow(cell, after, c, env.newId, env.now)
            else RecordingNow(cell, after, c, first.newId, first.now)
  {
  }

  lemma TickThenConnect(capacity: nat, w: World, c: ChannelId, env: Env, envs: ChannelId -> Env)
    requires Invariant(capacity, w)
    requires c in w.core.channels && w.core.channels[c] == Connecting && !Dead(w.core, c)
    requires w.handed != [] && w.handed[0] == For(c) && |w.core.sessions| < capacity
    requires For(c) in w.batch.start && For(c) !in w.batch.stop && For(c) !in w.batch.disconnect
    requires Working(env) && Working(envs(c)) && env.newId !in w.issued
    requires FreshFor(Order(w.batch), envs, w.issued + {env.newId})
    ensures Run(capacity, w, [Tick(envs), RunConnect(env)])
    ensures exists r, now :: RecordingNow(At(w.core, c), At(Exec(capacity, w, [Tick(envs), RunConnect(env)]).core, c), c, r, now)
  {
    var w1 := Next(capacity, w, Tick(envs));
    ExecTwo(capacity, w, Tick(envs), RunConnect(env));
    StepKeeps(capacity, w, Tick(envs));
    TickStarts(capacity, w, c, envs);
    var cell, mid := At(w.core, c), At(w1.core, c);
    RowsWithin(w.core, c);
    OrderSound(w.batch);
    TickBooks(capacity, w, envs);
    OrderOf(capacity, w, c);
    DeadAt(w1.core, c);
    DeadAt(w.core, c);
    ConnectAt(capacity, w1, env);
    StartThenConnect(c, cell, envs(c), env);
  }
}
