/** A crash between two callbacks and the startup that follows it, and what the
    protocol's assumptions keep out. */
module Recovery {
  import opened Common
  import opened ControlPlane
  import opened Handlers
  import opened Protocol
  import opened Books
  import opened Steps
  import opened Runs

  /** The worker's memory, and the connect jobs it had taken, are gone. */
  function Crash(w: World): World {
    w.(core := w.core.(sessions := map[], recordingIds := map[], pending := {}), handed := [])
  }

  predicate Orphan(k: Core, c: ChannelId) {
    c in k.claimed && c in k.channels && Active(k.channels[c]) && c !in k.sessions
  }

  /** `_reconcile_orphaned_channels`. */
  ghost function Reconcile(k: Core): Core {
    if k.claimed == {} then k
    else k.(
      channels := map c | c in k.channels :: if Orphan(k, c) then Idle else k.channels[c],
      recordings := map r | r in k.recordings :: Reconciled(k, r),
      claimed := k.claimed * k.sessions.Keys)
  }

  ghost function Reconciled(k: Core, r: RecordingId): Row
    requires r in k.recordings
  {
    var c := k.recordings[r].channel;
    if Orphan(k, c) then FailActive(RowsOf(k.recordings, c))[r] else k.recordings[r]
  }

  /** `_startup`: reconcile, and only then overwrite the claim it reads. */
  ghost function Startup(k: Core): Core {
    Reconcile(k).(claimed := k.sessions.Keys)
  }

  ghost function ReconciledCell(k: Core, c: ChannelId): Cell {
    var cell := At(k, c);
    if Orphan(k, c) then cell.(status := Some(Idle), rows := FailActive(cell.rows)) else cell
  }

  lemma ReconcileAt(k: Core, c: ChannelId)
    ensures At(Reconcile(k), c) == ReconciledCell(k, c)
  {
    if k.claimed != {} {
      var own := RowsOf(k.recordings, c);
      var after := map r | r in k.recordings :: Reconciled(k, r);
      forall r | r in k.recordings ensures after[r].channel == k.recordings[r].channel {
        assert r in RowsOf(k.recordings, k.recordings[r].channel);
      }
      assert RowsOf(after, c).Keys == own.Keys;
      forall r | r in own ensures RowsOf(after, c)[r] == if Orphan(k, c) then FailActive(own)[r] else own[r] {}
      assert RowsOf(after, c) == if Orphan(k, c) then FailActive(own) else own;
      assert At(Reconcile(k), c).status == ReconciledCell(k, c).status;
    }
  }

  /** From every reachable crash-free state: after crash and startup a row still
      in progress belongs to a channel the last heartbeat did not claim, or to one
      deleted meanwhile; claimed channels are inactive with nothing in progress;
      unclaimed ones are as they were; starting up again changes nothing. */
  lemma CrashRecovery(capacity: nat, w0: World, actions: seq<Action>)
    requires Initial(w0) && Run(capacity, w0, actions)
    ensures var w := Exec(capacity, w0, actions);
            var k := Startup(Crash(w).core);
      && (forall r :: r in k.recordings && k.recordings[r].status == InProgress ==>
            k.recordings[r].channel !in w.core.claimed || k.recordings[r].channel !in w.core.channels)
      && (forall c :: c in w.core.claimed && c in k.channels ==> !Active(k.channels[c]))
      && (forall c :: c !in w.core.claimed ==> At(k, c) == At(Crash(w).core, c))
      && k.channels.Keys == w.core.channels.Keys && k.recordings.Keys == w.core.recordings.Keys
      && (forall r :: r in k.recordings && w.core.recordings[r].status != InProgress ==> k.recordings[r] == w.core.recordings[r])
      && Startup(k) == k
  {
    InitialHolds(capacity, w0);
    RunKeeps(capacity, w0, actions);
    var w := Exec(capacity, w0, actions);
    var bare := Crash(w).core;
    var k := Startup(bare);
    forall c
      ensures At(k, c) == ReconciledCell(bare, c)
      ensures c in w.core.claimed && c in w.core.channels ==> forall r: RecordingId :: !ActiveRow(At(k, c).rows, r)
    {
      ReconcileAt(bare, c);
      assert At(k, c) == At(Reconcile(bare), c);
      if c in w.core.claimed && c in w.core.channels {
        OrderOf(capacity, w, c);
        ClaimedSettles(w.core, bare, c);
      }
    }
    forall r | r in k.recordings && k.recordings[r].status == InProgress
      ensures k.recordings[r].channel !in w.core.claimed || k.recordings[r].channel !in w.core.channels
    {
      assert ActiveRow(At(k, k.recordings[r].channel).rows, r);
    }
    forall r | r in k.recordings && w.core.recordings[r].status != InProgress ensures k.recordings[r] == w.core.recordings[r] {
      assert r in RowsOf(bare.recordings, bare.recordings[r].channel);
    }
    forall c | c in w.core.claimed && c in k.channels ensures !Active(k.channels[c]) {
      assert At(k, c).status == Some(k.channels[c]);
    }
  }

  lemma ClaimedSettles(k: Core, bare: Core, c: ChannelId)
    requires Agrees(At(k, c))
    requires bare == k.(sessions := map[], recordingIds := map[], pending := {})
    requires c in k.claimed && (c !in k.channels ==> c !in k.recordingIds)
    ensures forall r: RecordingId :: !ActiveRow(ReconciledCell(bare, c).rows, r)
  {
  }

  /** The claim is the set of sessions held when the last tick began, or nothing
      before the first. */
  ghost function LastClaim(capacity: nat, w0: World, actions: seq<Action>): set<ChannelId> {
    if actions == [] then {}
    else
      var init := actions[..|actions| - 1];
      if actions[|actions| - 1].Tick? then Exec(capacity, w0, init).core.sessions.Keys
      else LastClaim(capacity, w0, init)
  }

  lemma TickClaim(capacity: nat, w: World, envs: ChannelId -> Env)
    requires w.core.recordings.Keys <= w.issued && Enabled(w, Tick(envs))
    ensures Next(capacity, w, Tick(envs)).core.claimed == w.core.sessions.Keys
  {
    OrderSound(w.batch);
    RunOpsAt(Reap(w.core), Order(w.batch), w.batch, envs);
  }

  lemma {:induction false} ClaimedAtLastHeartbeat(capacity: nat, w0: World, actions: seq<Action>)
    requires Initial(w0) && Run(capacity, w0, actions)
    ensures Exec(capacity, w0, actions).core.claimed == LastClaim(capacity, w0, actions)
  {
    if actions != [] {
      var init := actions[..|actions| - 1];
      ClaimedAtLastHeartbeat(capacity, w0, init);
      InitialHolds(capacity, w0);
      RunKeeps(capacity, w0, init);
      var w := Exec(capacity, w0, init);
      match actions[|actions| - 1]
      case Tick(envs) => TickClaim(capacity, w, envs);
      case _ =>
    }
  }

  // -------------------------------------------------- runs across crashes

  /** The world the restarted worker finds; queues and pending publications stay. */
  ghost function Restart(w: World): World {
    Crash(w).(core := Startup(Crash(w).core))
  }

  /** The crash costs the channel nothing: its session was claimed; or it had none
      that mattered, and its connect job is not one the main loop had taken. */
  ghost predicate Spared(w: World, c: ChannelId) {
    (c in w.core.channels && c in w.core.claimed) ||
    (c !in w.core.recordingIds &&
     (c in w.core.channels ==>
        var st := w.core.channels[c];
        && (!Active(st) || st == Connecting || st == Disconnecting)
        && (st == Connecting ==> Request(ConnectJob, c) in w.outbox || For(c) in w.connectQ)))
  }

  lemma RestartAt(w: World, c: ChannelId)
    ensures At(Restart(w).core, c) == ReconciledCell(Crash(w).core, c)
  {
    ReconcileAt(Crash(w).core, c);
    assert At(Restart(w).core, c) == At(Reconcile(Crash(w).core), c);
  }

  lemma SparedIff(w: World, c: ChannelId)
    requires Agrees(At(w.core, c)) && Backed(At(w.core, c), JobsOf(w, c))
    ensures var cell := At(Restart(w).core, c);
      Agrees(cell) && Backed(cell, JobsOf(Restart(w), c)) <==> Spared(w, c)
  {
    var bare, before, cell := Crash(w).core, At(w.core, c), At(Restart(w).core, c);
    RestartAt(w, c);
    assert At(bare, c) == before.(session := None, recordingId := None, pending := false);
    if c in w.core.claimed && c in w.core.channels {
      ClaimedSettles(w.core, bare, c);
      assert Orphan(bare, c) <==> Active(w.core.channels[c]);
    } else {
      assert cell == before.(session := None, recordingId := None, pending := false);
      if before.recordingId.Some? {
        assert ActiveRow(cell.rows, before.recordingId.value);
      }
    }
  }

  lemma CrashBooks(capacity: nat, w: World)
    requires InBooks(capacity, w)
    ensures InBooks(capacity, Crash(w))
  {
    forall c ensures Tracked(At(Crash(w).core, c)) { assert Tracked(At(w.core, c)); }
  }

  /** Startup, of a worker that remembers nothing yet, keeps the books. */
  lemma StartupBooks(k: Core, issued: set<RecordingId>)
    requires Ledger(k, issued) && k.sessions == map[] && k.recordingIds == map[]
    ensures Ledger(Startup(k), issued) && Lasts(k.recordings, issued, Startup(k).recordings)
  {
    forall c ensures Tracked(At(Startup(k), c)) {
      ReconcileAt(k, c);
      assert At(Startup(k), c) == At(Reconcile(k), c);
    }
    forall r | r in k.recordings
      ensures Startup(k).recordings[r] == k.recordings[r]
              || (k.recordings[r].status == InProgress && Startup(k).recordings[r].status == Failed)
    {
      assert r in RowsOf(k.recordings, k.recordings[r].channel);
    }
  }

  /** Exactly when a crash costs nothing: the restarted worker is back in the
      protocol's invariant, and with it in every guarantee about runs, if and only
      if the crash spares every channel. */
  lemma CrashKeepsIff(capacity: nat, w: World)
    requires Invariant(capacity, w)
    ensures Invariant(capacity, Restart(w)) <==> forall c :: Spared(w, c)
  {
    CrashBooks(capacity, w);
    StartupBooks(Crash(w).core, w.issued);
    forall c ensures InOrder(Restart(w), c) <==> Spared(w, c) {
      OrderOf(capacity, w, c);
      SparedIff(w, c);
    }
  }

  // -------------------------------------------------- assumptions are needed

  const QUIET: Env := Env(true, true, true, Acked, true, 0, 0)

  const EMPTY: Core := Core(map[], map[], {}, map[], map[], {}, [])

  /** A connect job handled over a dead session keeps the agreement exactly when
      that session was not recording, the worker is full or the channel is gone. */
  lemma ConnectOverDeadIff(c: ChannelId, cell: Cell, full: bool, env: Env)
    requires Agrees(cell) && env.newId !in cell.rows
    requires cell.session.Some? && !cell.session.value.connected
    ensures Agrees(HandleConnect(c, cell, full, env).cell) <==> (cell.recordingId.None? || full || cell.status.None?)
  {
  }

  /** A connect was taken by the main loop, then a disconnect was committed but
      not published yet. */
  function DisconnectUnpublished(c: ChannelId): World {
    World(EMPTY.(channels := map[c := Disconnecting]), [], Batch([], [], []), [For(c)],
          multiset{Request(DisconnectJob, c)}, {})
  }

  lemma DisconnectUnpublishedReachable(c: ChannelId)
    ensures
      var w0 := World(EMPTY.(channels := map[c := Idle]), [], Batch([], [], []), [], multiset{}, {});
      var w1 := Next(1, w0, Accept(ConnectJob, c));
      var w2 := Next(1, w1, Publish(Request(ConnectJob, c)));
      var w3 := Next(1, w2, HandOver);
      && Initial(w0) && Enabled(w0, Accept(ConnectJob, c)) && Enabled(w1, Publish(Request(ConnectJob, c)))
      && Enabled(w2, HandOver) && Enabled(w3, Accept(DisconnectJob, c))
      && Next(1, w3, Accept(DisconnectJob, c)) == DisconnectUnpublished(c)
      && w3.core.channels[c] == Connecting
  {
    var w0 := World(EMPTY.(channels := map[c := Idle]), [], Batch([], [], []), [], multiset{}, {});
    var w2 := Next(1, Next(1, w0, Accept(ConnectJob, c)), Publish(Request(ConnectJob, c)));
    assert w2.outbox == multiset{};
    assert w2.connectQ == [For(c)];
  }

  /** Were a failed publish to revert in a later step of its own, a connect job
      handled in between would strand the channel: it goes back to connecting, its
      session is up, and no job is left anywhere. */
  lemma LateRevertStrands(c: ChannelId)
    ensures
      var w5 := Next(1, DisconnectUnpublished(c), RunConnect(QUIET));
      var reverted := w5.(core := w5.core.(channels := map[c := Connecting]), outbox := multiset{});
      && Enabled(DisconnectUnpublished(c), RunConnect(QUIET))
      && w5.core.channels == map[c := Disconnecting]
      && c in reverted.core.sessions
      && JobsOf(reverted, c) == Jobs(false, false, false, false)
      && !Backed(At(reverted.core, c), JobsOf(reverted, c))
  {
    ConnectUnderDisconnecting(c, DisconnectUnpublished(c).core);
  }

  /** A connect job that finds its channel disconnecting brings the session up and
      leaves the row alone. */
  lemma ConnectUnderDisconnecting(c: ChannelId, k: Core)
    requires k == EMPTY.(channels := map[c := Disconnecting])
    ensures ConnectStep(k, For(c), 1, QUIET) == k.(sessions := map[c := Session(true, false)])
  {
  }

  /** After a crash a connect job the main loop had taken is lost: the channel
      stays connecting, unclaimed and without a job, until someone disconnects it. */
  lemma CrashLosesTakenConnect(c: ChannelId)
    ensures
      var w0 := World(EMPTY.(channels := map[c := Idle]), [], Batch([], [], []), [], multiset{}, {});
      var w1 := Next(1, w0, Accept(ConnectJob, c));
      var w2 := Next(1, w1, Publish(Request(ConnectJob, c)));
      var after := Crash(Next(1, w2, HandOver));
      && Initial(w0) && Enabled(w0, Accept(ConnectJob, c)) && Enabled(w1, Publish(Request(ConnectJob, c)))
      && Enabled(w2, HandOver)
      && Startup(after.core).channels == map[c := Connecting] && JobsOf(after, c) == Jobs(false, false, false, false)
  {
  }
}
