/** The ingest worker as it is written: a class whose handlers update its session
    maps, the channel and recording tables and the event queues in place.  Each
    method is proved equal to its step of the protocol. */
module Worker {
  import opened Common
  import opened ControlPlane
  import opened Handlers
  import opened Protocol
  import opened Recovery
  import opened Resets
  import opened Tables

  /** The tables the worker and the API share; `assets` are the recordings with an
      asset row, `claimed` is active_channels on this worker's row. */
  class Database {
    var channels: map<ChannelId, Status>
    var recordings: Rows
    var assets: set<RecordingId>
    var claimed: set<ChannelId>

    constructor ()
      ensures channels == map[] && recordings == map[] && assets == {} && claimed == {}
    {
      channels, recordings, assets, claimed := map[], map[], {}, {};
    }
  }

  /** The Redis keyspace: a missing list is an empty one; oldest entry first.
      The two event lists keep what was ever published. */
  class Broker {
    var lists: map<Kind, seq<Job>>
    var resets: seq<Job>
    var recordingComplete: seq<Event>
    var postprocess: seq<Event>

    constructor ()
      ensures lists == map[] && resets == [] && recordingComplete == [] && postprocess == []
    {
      lists, resets, recordingComplete, postprocess := map[], [], [], [];
    }

    function Queue(kind: Kind): seq<Job>
      reads this
    {
      if kind in lists then lists[kind] else []
    }

    function Pending(): Batch
      reads this
    {
      Batch(Queue(DisconnectJob), Queue(StopJob), Queue(StartJob))
    }

    /** lpush. */
    method Publish(kind: Kind, job: Job)
      modifies this`lists
      ensures Queue(kind) == old(Queue(kind)) + [job]
      ensures forall k :: k != kind ==> Queue(k) == old(Queue(k))
    {
      lists := lists[kind := Queue(kind) + [job]];
    }

    /** rpop. */
    method TryPop(kind: Kind) returns (job: Option<Job>)
      modifies this`lists
      ensures job.None? ==> old(Queue(kind)) == [] && lists == old(lists)
      ensures job.Some? ==> old(Queue(kind)) != [] && job.value == old(Queue(kind))[0] && Queue(kind) == old(Queue(kind))[1..]
      ensures forall k :: k != kind ==> Queue(k) == old(Queue(k))
    {
      var q := Queue(kind);
      if q == [] {
        return None;
      }
      job := Some(q[0]);
      lists := lists[kind := q[1..]];
    }
  }

  class IngestWorker {
    const db: Database
    const broker: Broker
    const capacity: nat
    var sessions: map<ChannelId, Session>
    var recordingIds: map<ChannelId, RecordingId>
    var pendingRecord: set<ChannelId>

    ghost function View(): Core
      reads this, db, broker
    {
      Core(db.channels, db.recordings, db.claimed, sessions, recordingIds, pendingRecord, broker.postprocess)
    }

    /** A remembered identifier that still has a row names a row of its channel;
        both event queues get every event. */
    ghost predicate Valid()
      reads this, db, broker
    {
      Remembers(View()) && broker.recordingComplete == broker.postprocess
    }

    /** A new uuid names no row and nothing the worker remembers. */
    ghost predicate Unused(r: RecordingId)
      reads this, db
    {
      r !in db.recordings && r !in recordingIds.Values
    }

    constructor (db: Database, broker: Broker, capacity: nat)
      requires broker.recordingComplete == broker.postprocess
      ensures Valid() && this.db == db && this.broker == broker && this.capacity == capacity
      ensures sessions == map[] && recordingIds == map[] && pendingRecord == {}
    {
      this.db, this.broker, this.capacity := db, broker, capacity;
      sessions, recordingIds, pendingRecord := map[], map[], {};
    }

    // ------------------------------------------------------------ recordings

    /** `_fail_active_recording`. */
    method FailActiveRecording(c: ChannelId) returns (found: bool)
      modifies db`recordings
      ensures db.recordings == FailRows(old(db.recordings), c)
      ensures found <==> exists r: RecordingId :: ActiveRow(RowsOf(old(db.recordings), c), r)
    {
      ghost var own := RowsOf(db.recordings, c);
      if r :| r in db.recordings && NewestActive(RowsOf(db.recordings, c), r) {
        assert ActiveRow(own, r);
        NewestUnique(own, Newest(own).value, r);
        db.recordings := db.recordings[r := db.recordings[r].(status := Failed)];
        found := true;
      } else {
        assert Newest(own) == None;
        found := false;
      }
    }

    /** `_finalize_recording(completed=True)`; the session is handed back as
        `stop_recording` leaves it. */
    method FinalizeRecording(c: ChannelId, session: Session) returns (stopped: Session)
      requires Valid()
      modifies this`recordingIds, db`recordings, broker`postprocess, broker`recordingComplete
      ensures Valid() && stopped == session.(recording := false)
      ensures View() == FinalizeTables(old(View()), c, session)
    {
      ghost var k := View();
      FinalizeRows(k, c, session);
      stopped := session;
      if !session.recording && c !in recordingIds {
        return;
      }
      if session.recording {
        stopped := session.(recording := false);
      }
      var recordingId := Lookup(recordingIds, c);
      recordingIds := recordingIds - {c};
      var target: Option<RecordingId> := None;
      ghost var own := RowsOf(db.recordings, c);
      if recordingId.Some? && recordingId.value in db.recordings {
        target := recordingId;
      } else if r :| r in db.recordings && NewestActive(RowsOf(db.recordings, c), r) {
        assert ActiveRow(own, r);
        NewestUnique(own, Newest(own).value, r);
        target := Some(r);
      } else {
        assert Newest(own) == None;
      }
      assert target == Target(k, c);
      if target.None? {
        return;
      }
      var r := target.value;
      db.recordings := db.recordings[r := db.recordings[r].(status := Completed)];
      var event := Event(r, c);
      broker.recordingComplete := broker.recordingComplete + [event];
      broker.postprocess := broker.postprocess + [event];
    }

    // -------------------------------------------------------------- handlers

    method HandleRecordStart(c: ChannelId, env: Env)
      requires Valid() && Unused(env.newId)
      modifies this`sessions, this`recordingIds, this`pendingRecord, db`channels, db`recordings
      ensures Valid()
      ensures View() == StartTables(old(View()), c, env)
    {
      StartRemembers(View(), c, env);
      if c !in sessions || !sessions[c].connected || !env.alive {
        if c in sessions {
          sessions := sessions[c := sessions[c].(connected := false)];
        }
        pendingRecord := pendingRecord + {c};
        return;
      }
      if sessions[c].recording {
        pendingRecord := pendingRecord - {c};
        return;
      }
      pendingRecord := pendingRecord - {c};
      ghost var k := View();
      db.recordings := db.recordings[env.newId := Row(c, InProgress, env.now)];
      if c in db.channels {
        db.channels := db.channels[c := Recording];
      }
      recordingIds := recordingIds[c := env.newId];
      match env.starts {
        case Acked =>
          sessions := sessions[c := sessions[c].(recording := true)];
        case Refused(still) =>
          RefuseStart(c, still, env.newId);
          Overwrite(k.recordings, env.newId, Row(c, InProgress, env.now), Row(c, Failed, env.now));
          Overwrite(k.recordingIds, c, env.newId, 0);
          Overwrite(k.channels, c, Recording, if still then Connected else Error);
      }
    }

    /** `start_recording` raised: the row just written is failed again. */
    method RefuseStart(c: ChannelId, still: bool, r: RecordingId)
      requires c in sessions && c in recordingIds && recordingIds[c] == r
      modifies this`sessions, this`recordingIds, db`channels, db`recordings
      ensures sessions == old(sessions)[c := old(sessions)[c].(connected := still)]
      ensures recordingIds == old(recordingIds) - {c}
      ensures db.recordings == SetRow(old(db.recordings), r, Failed)
      ensures db.channels == SetStatus(old(db.channels), c, if still then Connected else Error)
    {
      sessions := sessions[c := sessions[c].(connected := still)];
      var rid := Lookup(recordingIds, c);
      recordingIds := recordingIds - {c};
      if rid.Some? && rid.value in db.recordings {
        db.recordings := db.recordings[rid.value := db.recordings[rid.value].(status := Failed)];
      }
      if c in db.channels {
        db.channels := db.channels[c := if still then Connected else Error];
      }
    }

    method HandleRecordStop(c: ChannelId, env: Env)
      requires Valid()
      modifies this`sessions, this`recordingIds, this`pendingRecord, db`channels, db`recordings,
               broker`postprocess, broker`recordingComplete
      ensures Valid()
      ensures View() == StopTables(old(View()), c, env)
    {
      StopRemembers(View(), c, env);
      pendingRecord := pendingRecord - {c};
      if c !in sessions {
        if c in db.channels && db.channels[c] in {Stopping, Recording, Starting} {
          db.channels := db.channels[c := Idle];
        }
        var _ := FailActiveRecording(c);
        return;
      }
      var stopped := FinalizeRecording(c, sessions[c]);
      var still := stopped.connected && env.aliveAfterStop;
      sessions := sessions[c := stopped.(connected := still)];
      if c in db.channels {
        db.channels := db.channels[c := if still then Connected else Idle];
      }
    }

    method HandleDisconnectJob(c: ChannelId)
      requires Valid()
      modifies this`sessions, this`recordingIds, this`pendingRecord, db`channels, db`recordings,
               broker`postprocess, broker`recordingComplete
      ensures Valid()
      ensures View() == DisconnectTables(old(View()), c)
    {
      DisconnectRemembers(View(), c);
      pendingRecord := pendingRecord - {c};
      var session := Lookup(sessions, c);
      sessions := sessions - {c};
      if session.Some? {
        if session.value.recording {
          var _ := FinalizeRecording(c, session.value);
        }
      }
      if c in db.channels && Active(db.channels[c]) {
        db.channels := db.channels[c := Idle];
      }
    }

    /** `_handle_connect`. */
    method HandleConnectJob(c: ChannelId, env: Env)
      requires Valid() && Unused(env.newId)
      modifies this`sessions, this`recordingIds, this`pendingRecord, db`channels, db`recordings
      ensures Valid()
      ensures View() == ConnectTables(old(View()), c, capacity, env)
    {
      if c in sessions && sessions[c].connected {
        if c in db.channels && db.channels[c] == Connecting {
          db.channels := db.channels[c := Connected];
        }
        if c in pendingRecord {
          HandleRecordStart(c, env.(alive := env.survives));
        }
        return;
      }
      if |sessions| >= capacity {
        if c in db.channels && db.channels[c] in {Connecting, Starting} {
          db.channels := db.channels[c := Error];
        }
        return;
      }
      if c !in db.channels {
        return;
      }
      var startRecordAfter := db.channels[c] == Starting;
      if !env.connects {
        db.channels := db.channels[c := Error];
        return;
      }
      sessions := sessions[c := Session(true, false)];
      if db.channels[c] == Connecting {
        db.channels := db.channels[c := Connected];
      }
      if startRecordAfter || c in pendingRecord {
        HandleRecordStart(c, env.(alive := env.survives));
      }
    }

    /** `_idle_connect`: a payload without a channel_id raises, and is dropped. */
    method IdleConnect(job: Job, env: Env)
      requires Valid() && Unused(env.newId)
      modifies this`sessions, this`recordingIds, this`pendingRecord, db`channels, db`recordings
      ensures Valid()
      ensures View() == ConnectStep(old(View()), job, capacity, env)
    {
      match job
      case Malformed =>
      case For(c) =>
        FlatConnect(View(), c, capacity, env);
        HandleConnectJob(c, env);
    }

    // ------------------------------------------------------------ heartbeat

    /** `_heartbeat`. */
    method HeartbeatTick()
      requires Valid()
      modifies this`sessions, this`recordingIds, this`pendingRecord, db`channels, db`recordings, db`claimed
      ensures Valid()
      ensures View() == Reap(old(View()))
    {
      ghost var k := View();
      db.claimed := sessions.Keys;
      var items := sessions;
      var todo := sessions.Keys;
      while todo != {}
        invariant todo <= items.Keys && items == k.sessions
        invariant Valid() && Beaten(k, View(), items.Keys - todo)
        decreases todo
      {
        var c :| c in todo;
        ghost var done := items.Keys - todo;
        todo := todo - {c};
        ghost var k1 := View();
        BeatOne(k, k1, done, c);
        assert items.Keys - todo == done + {c};
        if !items[c].connected {
          ReapSession(c);
        }
      }
      assert items.Keys - {} == items.Keys;
      BeatAll(k, View());
    }

    /** A dead session's share: drop it, fail its recording, mark the channel. */
    method ReapSession(c: ChannelId)
      requires Valid()
      modifies this`sessions, this`recordingIds, this`pendingRecord, db`channels, db`recordings
      ensures Valid()
      ensures View() == ReapTables(old(View()), c)
    {
      FailRemembers(View(), ReapTables(View(), c), c);
      sessions := sessions - {c};
      recordingIds := recordingIds - {c};
      pendingRecord := pendingRecord - {c};
      var _ := FailActiveRecording(c);
      if c in db.channels && Active(db.channels[c]) {
        db.channels := db.channels[c := Error];
      }
    }

    // ---------------------------------------------------------------- drain

    /** The pending dictionary: one non-empty, duplicate-free list per key, the keys
        in insertion order. */
    static ghost predicate Tidy(order: seq<ChannelId>, ops: map<ChannelId, seq<Op>>) {
      ops.Keys == (set c | c in order) && forall c :: c in ops ==> ops[c] != [] && Distinct(ops[c])
    }

    static predicate Listed(ops: map<ChannelId, seq<Op>>, c: ChannelId, o: Op) {
      c in ops && o in ops[c]
    }

    /** `ops` lists what `before` does, and `op` for the channels of `read`. */
    static ghost predicate Adds(before: map<ChannelId, seq<Op>>, ops: map<ChannelId, seq<Op>>, op: Op, read: seq<Job>) {
      forall c, o :: Listed(ops, c, o) <==> Listed(before, c, o) || (o == op && For(c) in read)
    }

    static lemma AddsMore(before: map<ChannelId, seq<Op>>, mid: map<ChannelId, seq<Op>>, ops: map<ChannelId, seq<Op>>,
                          op: Op, read: seq<Job>, job: Job)
      requires Adds(before, mid, op, read) && Adds(mid, ops, op, [job])
      ensures Adds(before, ops, op, read + [job])
    {
    }

    /** `pending.setdefault(channel_id, [])`, then the op unless already listed. */
    method AddOp(c: ChannelId, op: Op, order: seq<ChannelId>, ops: map<ChannelId, seq<Op>>)
      returns (order': seq<ChannelId>, ops': map<ChannelId, seq<Op>>)
      requires Tidy(order, ops)
      ensures order' == if c in order then order else order + [c]
      ensures Tidy(order', ops') && Adds(ops, ops', op, [For(c)])
    {
      order', ops' := order, ops;
      if c !in ops {
        order' := order + [c];
        ops' := ops[c := []];
      }
      var list := ops'[c];
      if op !in list {
        ops' := ops'[c := list + [op]];
        assert forall o :: o in list + [op] <==> o in list || o == op;
      }
    }

    /** The dictionary after `read` came off one queue, over what `before` held;
        `seen` are the channels read from the queues before it. */
    static ghost predicate Gathered(order: seq<ChannelId>, ops: map<ChannelId, seq<Op>>, before: map<ChannelId, seq<Op>>,
                                    op: Op, seen: seq<ChannelId>, read: seq<Job>) {
      order == FirstSeen(seen + Ids(read)) && Tidy(order, ops) && Adds(before, ops, op, read)
    }

    /** One payload: a channel's op, or nothing to act on. */
    method Gather(job: Job, op: Op, order: seq<ChannelId>, ops: map<ChannelId, seq<Op>>,
                  ghost before: map<ChannelId, seq<Op>>, ghost seen: seq<ChannelId>, ghost read: seq<Job>)
      returns (order': seq<ChannelId>, ops': map<ChannelId, seq<Op>>)
      requires Gathered(order, ops, before, op, seen, read)
      ensures Gathered(order', ops', before, op, seen, read + [job])
    {
      order', ops' := order, ops;
      SeenOne(seen, read, job);
      if job.For? {
        order', ops' := AddOp(job.channel, op, order, ops);
      }
      AddsMore(before, ops, ops', op, read, job);
    }

    static lemma TakeNext<T>(s: seq<T>, i: nat)
      requires i < |s|
      ensures s[..i] + [s[i]] == s[..i + 1] && s[i + 1..] == s[i..][1..]
    {
    }

    /** Reads one queue to its end. */
    method Collect(kind: Kind, op: Op, order: seq<ChannelId>, ops: map<ChannelId, seq<Op>>, ghost seen: seq<ChannelId>)
      returns (order': seq<ChannelId>, ops': map<ChannelId, seq<Op>>)
      requires order == FirstSeen(seen) && Tidy(order, ops)
      modifies broker`lists
      ensures broker.Queue(kind) == []
      ensures forall k :: k != kind ==> broker.Queue(k) == old(broker.Queue(k))
      ensures Gathered(order', ops', ops, op, seen, old(broker.Queue(kind)))
    {
      order', ops' := order, ops;
      ghost var all := broker.Queue(kind);
      ghost var i := 0;
      assert seen + Ids(all[..0]) == seen;
      var job := broker.TryPop(kind);
      while job.Some?
        invariant forall k :: k != kind ==> broker.Queue(k) == old(broker.Queue(k))
        invariant if job.Some? then i < |all| && job.value == all[i] && broker.Queue(kind) == all[i + 1..]
                  else i == |all| && broker.Queue(kind) == []
        invariant Gathered(order', ops', ops, op, seen, all[..i])
        decreases |all| - i
      {
        order', ops' := Gather(job.value, op, order', ops', ops, seen, all[..i]);
        TakeNext(all, i);
        i := i + 1;
        job := broker.TryPop(kind);
      }
      assert all[..i] == all;
    }

    lemma SeenOne(seen: seq<ChannelId>, read: seq<Job>, job: Job)
      ensures var s := FirstSeen(seen + Ids(read));
              FirstSeen(seen + Ids(read + [job])) ==
              if job.For? && job.channel !in s then s + [job.channel] else s
    {
      assert (read + [job])[..|read|] == read;
      if job.For? {
        var s := seen + Ids(read);
        assert seen + Ids(read + [job]) == s + [job.channel];
        assert (s + [job.channel])[..|s|] == s;
      } else {
        assert seen + Ids(read + [job]) == seen + Ids(read);
      }
    }

    lemma TwoOps(ops: seq<Op>)
      requires Distinct(ops) && NoOp !in ops && Disconnect !in ops
      ensures |ops| >= 2 ==> Start in ops && Stop in ops
    {
      if |ops| >= 2 {
        assert ops[0] in ops && ops[1] in ops && ops[0] != ops[1];
      }
    }

    /** `_resolve_ops`: what is left of one tick's ops for a channel. */
    method ResolveOps(c: ChannelId, ops: seq<Op>) returns (run: seq<Op>)
      requires ops != [] && Distinct(ops) && NoOp !in ops
      ensures run == [Resolve(Lookup(db.channels, c), Disconnect in ops, Stop in ops, Start in ops)] && run[0] != NoOp
    {
      if Disconnect in ops {
        return [Disconnect];
      }
      if Start in ops && Stop in ops {
        var status := Lookup(db.channels, c);
        return [if status == Some(Stopping) then Stop else Start];
      }
      run := ops;
      TwoOps(ops);
      assert ops == [ops[0]];
      assert forall o :: o in ops ==> o == ops[0];
      assert Resolve(Lookup(db.channels, c), Disconnect in ops, Stop in ops, Start in ops) == ops[0];
    }

    /** The three queues, read to their end. */
    method CollectAll() returns (order: seq<ChannelId>, ops: map<ChannelId, seq<Op>>)
      modifies broker`lists
      ensures order == Order(old(broker.Pending())) && Tidy(order, ops)
      ensures forall c, o :: Listed(ops, c, o) <==> Asked(old(broker.Pending()), c, o)
      ensures broker.Pending() == Batch([], [], []) && broker.Queue(ConnectJob) == old(broker.Queue(ConnectJob))
    {
      ghost var b := broker.Pending();
      order, ops := [], map[];
      order, ops := Collect(DisconnectJob, Disconnect, order, ops, []);
      assert [] + Ids(b.disconnect) == Ids(b.disconnect);
      order, ops := Collect(StopJob, Stop, order, ops, Ids(b.disconnect));
      order, ops := Collect(StartJob, Start, order, ops, Ids(b.disconnect) + Ids(b.stop));
    }

    static predicate Asked(b: Batch, c: ChannelId, o: Op) {
      (o == Disconnect && For(c) in b.disconnect) || (o == Stop && For(c) in b.stop) || (o == Start && For(c) in b.start)
    }

    /** The reset list, read to its end. */
    method CollectResets() returns (ids: seq<ChannelId>)
      modifies broker`resets
      ensures ids == Ids(old(broker.resets)) && broker.resets == []
    {
      ghost var all := broker.resets;
      ghost var i := 0;
      ids := [];
      while broker.resets != []
        invariant i <= |all| && broker.resets == all[i..] && ids == Ids(all[..i])
        decreases broker.resets
      {
        var job := broker.resets[0];
        broker.resets := broker.resets[1..];
        assert all[..i + 1][..i] == all[..i];
        if job.For? {
          ids := ids + [job.channel];
        }
        i := i + 1;
      }
      assert all[..i] == all;
    }

    /** `_drain_control_queues`; `forwarded`: the channels whose sessions got an ETR
        290 reset. */
    method DrainControlQueues(envs: ChannelId -> Env) returns (forwarded: seq<ChannelId>)
      requires Valid() && FreshFor(Order(broker.Pending()), envs, db.recordings.Keys + recordingIds.Values)
      modifies this`sessions, this`recordingIds, this`pendingRecord, db`channels, db`recordings, broker
      ensures Valid()
      ensures View() == Drain(old(View()), old(broker.Pending()), envs)
      ensures broker.Pending() == Batch([], [], []) && broker.Queue(ConnectJob) == old(broker.Queue(ConnectJob))
      ensures broker.resets == []
      ensures forwarded == Forwarded(Ids(old(broker.resets)), Disconnected(old(broker.Pending())), sessions.Keys)
    {
      ghost var b := broker.Pending();
      OrderSound(b);
      var order, ops := CollectAll();
      var resetIds := CollectResets();
      var disconnected := Torn(ops, b);
      RunPending(order, ops, b, envs);
      forwarded := ForwardResets(resetIds, disconnected, sessions.Keys);
    }

    /** The channels this tick will disconnect. */
    method Torn(ops: map<ChannelId, seq<Op>>, ghost b: Batch) returns (disconnected: set<ChannelId>)
      requires forall c, o :: Listed(ops, c, o) <==> Asked(b, c, o)
      ensures disconnected == Disconnected(b)
    {
      disconnected := set c | c in ops && Disconnect in ops[c];
      forall c ensures c in disconnected <==> c in Disconnected(b) {
        IdsMember(b.disconnect, c);
        assert Listed(ops, c, Disconnect) <==> Asked(b, c, Disconnect);
      }
    }

    method RunPending(order: seq<ChannelId>, ops: map<ChannelId, seq<Op>>, ghost b: Batch, envs: ChannelId -> Env)
      requires Valid() && Distinct(order) && FreshFor(order, envs, db.recordings.Keys + recordingIds.Values)
      requires Tidy(order, ops)
      requires forall c, o :: Listed(ops, c, o) <==> Asked(b, c, o)
      modifies this`sessions, this`recordingIds, this`pendingRecord, db`channels, db`recordings,
               broker`postprocess, broker`recordingComplete
      ensures Valid() && View() == RunOps(old(View()), order, b, envs)
    {
      ghost var k := View();
      for i := 0 to |order|
        invariant Valid() && View() == RunOps(k, order[..i], b, envs)
      {
        var c := order[i];
        ghost var before := View();
        assert order[..i + 1][..i] == order[..i] && order[..i + 1][i] == c;
        FreshPrefix(order, i, envs, k.recordings.Keys + k.recordingIds.Values);
        NextUnused(k, order, i, b, envs);
        assert !Listed(ops, c, NoOp) && Listed(ops, c, Disconnect) == (For(c) in b.disconnect)
            && Listed(ops, c, Stop) == (For(c) in b.stop) && Listed(ops, c, Start) == (For(c) in b.start);
        assert c in ops;
        var run := ResolveOps(c, ops[c]);
        RunOne(c, run[0], envs(c));
        RunOpsSnoc(k, order, i, b, envs, before);
      }
      assert order[..|order|] == order;
    }

    /** `handlers[op]({...})`. */
    method RunOne(c: ChannelId, op: Op, env: Env)
      requires Valid() && Unused(env.newId) && op != NoOp
      modifies this`sessions, this`recordingIds, this`pendingRecord, db`channels, db`recordings,
               broker`postprocess, broker`recordingComplete
      ensures Valid()
      ensures View() == Put(old(View()), c, Apply(c, At(old(View()), c), op, env))
    {
      match op {
        case Disconnect =>
          FlatDisconnect(View(), c);
          HandleDisconnectJob(c);
        case Stop =>
          FlatStop(View(), c, env);
          HandleRecordStop(c, env);
        case Start =>
          FlatStart(View(), c, env);
          HandleRecordStart(c, env);
      }
    }

    lemma RunOpsSnoc(k: Core, order: seq<ChannelId>, i: nat, b: Batch, envs: ChannelId -> Env, before: Core)
      requires i < |order| && before == RunOps(k, order[..i], b, envs)
      ensures RunOps(k, order[..i + 1], b, envs) == Put(before, order[i], DrainEffect(order[i], At(before, order[i]), b, envs(order[i])))
    {
      assert order[..i + 1][..i] == order[..i];
    }

    /** The identifiers drawn so far are the only new ones a tick has left. */
    lemma NextUnused(k: Core, order: seq<ChannelId>, i: nat, b: Batch, envs: ChannelId -> Env)
      requires i < |order| && Distinct(order)
      requires FreshFor(order, envs, k.recordings.Keys + k.recordingIds.Values)
      ensures var before := RunOps(k, order[..i], b, envs);
              envs(order[i]).newId !in before.recordings && envs(order[i]).newId !in before.recordingIds.Values
    {
      var used := k.recordings.Keys + k.recordingIds.Values;
      FreshPrefix(order, i, envs, used);
      RunOpsAt(k, order[..i], b, envs);
      var before := RunOps(k, order[..i], b, envs);
      forall c | c in before.recordingIds ensures before.recordingIds[c] in used + Drawn(order[..i], envs) {
        assert Lookup(before.recordingIds, c) == At(before, c).recordingId;
        DrawnOrKept(c, At(k, c), Resolve(At(k, c).status, For(c) in b.disconnect, For(c) in b.stop, For(c) in b.start), envs(c));
      }
    }

    lemma DrawnOrKept(c: ChannelId, cell: Cell, op: Op, env: Env)
      ensures Apply(c, cell, op, env).cell.recordingId in {None, cell.recordingId, Some(env.newId)}
    {
    }

    lemma FreshPrefix(order: seq<ChannelId>, i: nat, envs: ChannelId -> Env, used: set<RecordingId>)
      requires i < |order| && Distinct(order) && FreshFor(order, envs, used)
      ensures Distinct(order[..i]) && FreshFor(order[..i], envs, used)
      ensures envs(order[i]).newId !in used + Drawn(order[..i], envs)
    {
    }

    /** `_glib_tick`: the worker's share of the protocol's tick. */
    method GlibTick(envs: ChannelId -> Env) returns (forwarded: seq<ChannelId>)
      requires Valid() && FreshFor(Order(broker.Pending()), envs, db.recordings.Keys + recordingIds.Values)
      modifies this`sessions, this`recordingIds, this`pendingRecord, db, broker
      ensures Valid()
      ensures View() == Drain(Reap(old(View())), old(broker.Pending()), envs)
      ensures broker.Pending() == Batch([], [], []) && broker.Queue(ConnectJob) == old(broker.Queue(ConnectJob))
      ensures forall c :: c in forwarded <==>
                && For(c) in old(broker.resets) && c in old(sessions) && old(sessions)[c].connected
                && For(c) !in old(broker.Pending()).disconnect
    {
      HeartbeatTick();
      ghost var k, b, jobs := View(), broker.Pending(), broker.resets;
      forwarded := DrainControlQueues(envs);
      assert k.sessions == Reap(old(View())).sessions;
      forall c ensures c in forwarded <==> For(c) in jobs && c in k.sessions && For(c) !in b.disconnect {
        ResetReaches(k, b, envs, jobs, c);
      }
    }

    // -------------------------------------------------------- start and stop

    /** `_startup`: reconcile, and only then overwrite the claim it read. */
    method StartUp()
      requires Valid()
      modifies db
      ensures Valid()
      ensures View() == Startup(old(View()))
    {
      ReconcileOrphanedChannels();
      db.claimed := sessions.Keys;
    }

    method ReconcileOrphanedChannels()
      requires Valid()
      modifies db
      ensures Valid()
      ensures View() == Reconcile(old(View()))
    {
      ghost var k := View();
      if db.claimed == {} {
        return;
      }
      var orphans := set c | c in db.claimed && c in db.channels && Active(db.channels[c]);
      var todo := orphans;
      while todo != {}
        invariant todo <= orphans && recordingIds == k.recordingIds
        invariant Valid() && Reset(k, View(), orphans - todo)
        decreases todo
      {
        var c :| c in todo;
        ghost var done := orphans - todo;
        todo := todo - {c};
        ghost var k1 := View();
        ResetOne(k, k1, done, c);
        assert orphans - todo == done + {c};
        if c !in sessions {
          assert c in db.channels by { assert Lookup(db.channels, c) == At(View(), c).status; assert At(View(), c) == At(k, c); }
          db.channels := db.channels[c := Idle];
          var _ := FailActiveRecording(c);
          assert View() == OrphanTables(k1, c);
          FailRemembers(k1, View(), c);
        }
      }
      assert orphans - {} == orphans;
      ResetAll(k, View(), orphans);
      db.claimed := set c | c in db.claimed && c in sessions;
      assert db.claimed == k.claimed * k.sessions.Keys;
    }

    /** `_shutdown`: every session is torn down as by a disconnect job. */
    method Shutdown()
      requires Valid()
      modifies this`sessions, this`recordingIds, this`pendingRecord, db`channels, db`recordings,
               broker`postprocess, broker`recordingComplete
      ensures Valid() && sessions == map[]
      ensures TornDown(old(View()), View(), old(sessions).Keys)
    {
      ghost var k := View();
      ghost var held := sessions.Keys;
      var todo := sessions.Keys;
      while todo != {}
        invariant todo <= held && Valid() && TornDown(k, View(), held - todo)
        decreases todo
      {
        var c :| c in todo;
        ghost var done := held - todo;
        todo := todo - {c};
        TearOne(k, View(), done, c);
        FlatDisconnect(View(), c);
        assert held - todo == done + {c};
        HandleDisconnectJob(c);
      }
      assert held - {} == held;
      forall c ensures c !in sessions {
        assert Lookup(sessions, c) == At(View(), c).session;
      }
    }
  }
}
