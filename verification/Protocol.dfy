/** The whole protocol as a state machine: API requests that commit an intent and
    publish later, four job queues with no order between them, connect jobs handed
    to the main loop, the worker's tick, sessions that die at any moment, and API
    deletions. */
module Protocol {
  import opened Common
  import opened ControlPlane
  import opened Handlers

  /** A queued payload; one without a channel_id is discarded by its reader. */
  datatype Job = For(channel: ChannelId) | Malformed

  datatype Kind = ConnectJob | DisconnectJob | StopJob | StartJob

  /** An accepted request whose job is not published yet. */
  datatype Request = Request(kind: Kind, channel: ChannelId)

  datatype Batch = Batch(disconnect: seq<Job>, stop: seq<Job>, start: seq<Job>)

  datatype World = World(
    core: Core,
    connectQ: seq<Job>,
    batch: Batch,
    handed: seq<Job>,
    outbox: multiset<Request>,
    issued: set<RecordingId>)

  // ------------------------------------------------------- heartbeat, drain

  predicate Dead(k: Core, c: ChannelId) {
    c in k.sessions && !k.sessions[c].connected
  }

  /** `_heartbeat`: claim the sessions held on entry, then reap the dead ones. */
  ghost function Reap(k: Core): Core {
    k.(claimed := k.sessions.Keys,
       channels := map c | c in k.channels ::
         if Dead(k, c) && Active(k.channels[c]) then Error else k.channels[c],
       recordings := map r | r in k.recordings :: Reaped(k, r),
       sessions := map c | c in k.sessions && k.sessions[c].connected :: k.sessions[c],
       recordingIds := map c | c in k.recordingIds && !Dead(k, c) :: k.recordingIds[c],
       pending := set c | c in k.pending && !Dead(k, c))
  }

  ghost function Reaped(k: Core, r: RecordingId): Row
    requires r in k.recordings
  {
    var c := k.recordings[r].channel;
    if Dead(k, c) then FailActive(RowsOf(k.recordings, c))[r] else k.recordings[r]
  }

  lemma ReapAt(k: Core, c: ChannelId)
    ensures At(Reap(k), c) == Heartbeat(At(k, c)).cell
  {
    ReapedRows(k, c);
    var x, y := At(Reap(k), c), Heartbeat(At(k, c)).cell;
    assert x.rows == y.rows;
    assert x.status == y.status;
    assert x.session == y.session && x.recordingId == y.recordingId && x.pending == y.pending;
  }

  lemma ReapedRows(k: Core, c: ChannelId)
    ensures var own := RowsOf(k.recordings, c);
            RowsOf(Reap(k).recordings, c) == if Dead(k, c) then FailActive(own) else own
  {
    var own := RowsOf(k.recordings, c);
    var after := map r | r in k.recordings :: Reaped(k, r);
    forall r | r in k.recordings ensures after[r].channel == k.recordings[r].channel {
      assert r in RowsOf(k.recordings, k.recordings[r].channel);
    }
    assert RowsOf(after, c).Keys == own.Keys;
    forall r | r in own ensures RowsOf(after, c)[r] == if Dead(k, c) then FailActive(own)[r] else own[r] {}
  }

  function Ids(q: seq<Job>): seq<ChannelId> {
    if q == [] then []
    else Ids(q[..|q| - 1]) + (if q[|q| - 1].For? then [q[|q| - 1].channel] else [])
  }

  /** Insertion order of a dictionary keyed by the elements of `s`. */
  function FirstSeen(s: seq<ChannelId>): seq<ChannelId> {
    if s == [] then []
    else
      var d := FirstSeen(s[..|s| - 1]);
      if s[|s| - 1] in d then d else d + [s[|s| - 1]]
  }

  function Order(b: Batch): seq<ChannelId> {
    FirstSeen(Ids(b.disconnect) + Ids(b.stop) + Ids(b.start))
  }

  predicate Wanted(b: Batch, c: ChannelId) {
    For(c) in b.disconnect || For(c) in b.stop || For(c) in b.start
  }

  lemma {:induction false} IdsMember(q: seq<Job>, c: ChannelId)
    ensures c in Ids(q) <==> For(c) in q
  {
    if q != [] {
      IdsMember(q[..|q| - 1], c);
      assert q == q[..|q| - 1] + [q[|q| - 1]];
    }
  }

  lemma {:induction false} FirstSeenSound(s: seq<ChannelId>)
    ensures Distinct(FirstSeen(s))
    ensures forall c :: c in FirstSeen(s) <==> c in s
  {
    if s != [] {
      FirstSeenSound(s[..|s| - 1]);
      assert s == s[..|s| - 1] + [s[|s| - 1]];
    }
  }

  lemma OrderSound(b: Batch)
    ensures Distinct(Order(b))
    ensures forall c :: c in Order(b) <==> Wanted(b, c)
  {
    FirstSeenSound(Ids(b.disconnect) + Ids(b.stop) + Ids(b.start));
    forall c ensures c in Order(b) <==> Wanted(b, c) {
      IdsMember(b.disconnect, c);
      IdsMember(b.stop, c);
      IdsMember(b.start, c);
    }
  }

  ghost function DrainEffect(c: ChannelId, cell: Cell, b: Batch, env: Env): Effect {
    Apply(c, cell, Resolve(cell.status, For(c) in b.disconnect, For(c) in b.stop, For(c) in b.start), env)
  }

  /** The handlers of one tick, channel after channel. */
  ghost function RunOps(k: Core, order: seq<ChannelId>, b: Batch, envs: ChannelId -> Env): Core {
    if order == [] then k
    else
      var c := order[|order| - 1];
      var before := RunOps(k, order[..|order| - 1], b, envs);
      Put(before, c, DrainEffect(c, At(before, c), b, envs(c)))
  }

  /** `_drain_control_queues` once the queues have been read into `b`. */
  ghost function Drain(k: Core, b: Batch, envs: ChannelId -> Env): Core {
    RunOps(k, Order(b), b, envs)
  }

  /** Identifiers the handlers of `order` may use: fresh and all different. */
  ghost predicate FreshFor(order: seq<ChannelId>, envs: ChannelId -> Env, used: set<RecordingId>) {
    && (forall c :: c in order ==> envs(c).newId !in used)
    && (forall c, d :: c in order && d in order && c != d ==> envs(c).newId != envs(d).newId)
  }

  ghost function Drawn(order: seq<ChannelId>, envs: ChannelId -> Env): set<RecordingId> {
    set c | c in order :: envs(c).newId
  }

  lemma ApplyOwnRows(c: ChannelId, cell: Cell, op: Op, env: Env)
    requires forall r :: r in cell.rows ==> cell.rows[r].channel == c
    ensures var e := Apply(c, cell, op, env);
            OnlyAdds(c, cell.rows, e, env.newId) && forall r :: r in e.cell.rows ==> e.cell.rows[r].channel == c
  {
  }

  /** `k1` is `k` with the channels of `order` handled, each on its own. */
  ghost predicate Handled(k: Core, k1: Core, order: seq<ChannelId>, b: Batch, envs: ChannelId -> Env) {
    && k1.claimed == k.claimed
    && k1.recordings.Keys <= k.recordings.Keys + Drawn(order, envs)
    && forall c :: At(k1, c) == if c in order then DrainEffect(c, At(k, c), b, envs(c)).cell else At(k, c)
  }

  lemma HandleOne(k: Core, k1: Core, init: seq<ChannelId>, c: ChannelId, b: Batch, envs: ChannelId -> Env)
    requires Handled(k, k1, init, b, envs) && c !in init && envs(c).newId !in k1.recordings
    ensures Handled(k, Put(k1, c, DrainEffect(c, At(k1, c), b, envs(c))), init + [c], b, envs)
  {
    var cell := At(k1, c);
    assert cell == At(k, c);
    var e := DrainEffect(c, cell, b, envs(c));
    ApplyOwnRows(c, cell, Resolve(cell.status, For(c) in b.disconnect, For(c) in b.stop, For(c) in b.start), envs(c));
    assert OwnRows(k1, c, e.cell.rows);
    var k2 := Put(k1, c, e);
    PutOwn(k1, c, e);
    forall d ensures At(k2, d) == if d in init + [c] then DrainEffect(d, At(k, d), b, envs(d)).cell else At(k, d) {
      if d != c {
        PutOther(k1, c, e, d);
        assert d in init + [c] <==> d in init;
      }
    }
    assert envs(c).newId in Drawn(init + [c], envs) && Drawn(init, envs) <= Drawn(init + [c], envs);
  }

  /** Handlers of distinct channels do not see each other: each channel ends as
      its own handler alone would leave it. */
  lemma {:induction false} RunOpsAt(k: Core, order: seq<ChannelId>, b: Batch, envs: ChannelId -> Env)
    requires Distinct(order) && FreshFor(order, envs, k.recordings.Keys)
    ensures Handled(k, RunOps(k, order, b, envs), order, b, envs)
  {
    if order != [] {
      var n := |order| - 1;
      var c, init := order[n], order[..n];
      assert order == init + [c];
      assert c !in init;
      RunOpsAt(k, init, b, envs);
      HandleOne(k, RunOps(k, init, b, envs), init, c, b, envs);
    }
  }

  lemma {:induction false} RunOpsEvents(k: Core, order: seq<ChannelId>, b: Batch, envs: ChannelId -> Env, ev: Event)
    requires Distinct(order) && FreshFor(order, envs, k.recordings.Keys)
    ensures multiset(RunOps(k, order, b, envs).events)[ev] == multiset(k.events)[ev] +
      if ev.channel in order
      then multiset(EventsFor(DrainEffect(ev.channel, At(k, ev.channel), b, envs(ev.channel)).completed, ev.channel))[ev]
      else 0
  {
    if order != [] {
      var n := |order| - 1;
      var c, init := order[n], order[..n];
      assert order == init + [c];
      assert c !in init;
      RunOpsEvents(k, init, b, envs, ev);
      RunOpsAt(k, init, b, envs);
      var before := RunOps(k, init, b, envs);
      var out := EventsFor(DrainEffect(c, At(k, c), b, envs(c)).completed, c);
      assert RunOps(k, order, b, envs).events == before.events + out;
      if ev.channel != c {
        assert ev !in out;
      }
    }
  }

  ghost predicate SameJobs(a: Batch, b: Batch) {
    forall c ::
      && (For(c) in a.disconnect <==> For(c) in b.disconnect)
      && (For(c) in a.stop <==> For(c) in b.stop)
      && (For(c) in a.start <==> For(c) in b.start)
  }

  /** Same final tables whatever the order, repetition or padding of the jobs;
      the same events, possibly published in another order.  This is for any
      state, reachable or not. */
  lemma DrainConfluent(k: Core, a: Batch, b: Batch, envs: ChannelId -> Env)
    requires SameJobs(a, b)
    requires FreshFor(Order(a), envs, k.recordings.Keys)
    ensures Drain(k, a, envs).(events := []) == Drain(k, b, envs).(events := [])
    ensures multiset(Drain(k, a, envs).events) == multiset(Drain(k, b, envs).events)
  {
    OrderSound(a);
    OrderSound(b);
    assert forall c :: Wanted(a, c) <==> Wanted(b, c);
    var x, y := Drain(k, a, envs), Drain(k, b, envs);
    RunOpsAt(k, Order(a), a, envs);
    RunOpsAt(k, Order(b), b, envs);
    var x', y' := x.(events := []), y.(events := []);
    forall c ensures At(x', c) == At(y', c) {
      assert At(x, c) == At(y, c);
    }
    CoreExtensional(x', y');
    forall ev ensures multiset(x.events)[ev] == multiset(y.events)[ev] {
      RunOpsEvents(k, Order(a), a, envs, ev);
      RunOpsEvents(k, Order(b), b, envs, ev);
    }
  }

  // --------------------------------------------------------------- actions

  datatype Action =
    | Accept(kind: Kind, channel: ChannelId)
    | Publish(request: Request)
    | Inject(kind: Kind)
    | HandOver
    | RunConnect(env: Env)
    | Tick(envs: ChannelId -> Env)
    | Die(channel: ChannelId)
    | CreateChannel(channel: ChannelId)
    | DeleteChannel(channel: ChannelId)
    | DeleteRecording(recording: RecordingId)

  /** The scheduler's guards. */
  predicate Allowed(kind: Kind, st: Status) {
    match kind
    case ConnectJob => !Active(st)
    case DisconnectJob => Active(st)
    case StopJob => st == Recording || st == Starting || st == Stopping
    case StartJob => st == Connected || st == Connecting || st == Starting
  }

  /** The status a request commits before its job is published. */
  function Intent(kind: Kind, st: Status): Status {
    match kind
    case ConnectJob => Connecting
    case DisconnectJob => Disconnecting
    case StopJob => Stopping
    case StartJob => if st == Connected then Starting else st
  }

  function Push(w: World, kind: Kind, job: Job): World {
    match kind
    case ConnectJob => w.(connectQ := w.connectQ + [job])
    case DisconnectJob => w.(batch := w.batch.(disconnect := w.batch.disconnect + [job]))
    case StopJob => w.(batch := w.batch.(stop := w.batch.stop + [job]))
    case StartJob => w.(batch := w.batch.(start := w.batch.start + [job]))
  }

  /** One connect job on the main loop. */
  ghost function ConnectStep(k: Core, job: Job, capacity: nat, env: Env): Core {
    if job.Malformed? then k
    else Put(k, job.channel, HandleConnect(job.channel, At(k, job.channel), |k.sessions| >= capacity, env))
  }

  ghost predicate Enabled(w: World, a: Action) {
    match a
    case Accept(kind, c) => c in w.core.channels && Allowed(kind, w.core.channels[c])
    case Publish(req) => req in w.outbox
    case Inject(_) => true
    case HandOver => w.connectQ != []
    case RunConnect(env) =>
      // A dead session is reaped by a heartbeat before its channel reconnects.
      w.handed != [] && env.newId !in w.issued
      && (w.handed[0].For? ==> !Dead(w.core, w.handed[0].channel))
    case Tick(envs) => FreshFor(Order(w.batch), envs, w.issued)
    case Die(c) => c in w.core.sessions
    case CreateChannel(c) =>
      // A new uuid: no table or queue mentions it.
      At(w.core, c) == Cell(None, map[], None, None, false) && JobsOf(w, c) == Jobs(false, false, false, false)
    case DeleteChannel(c) => c in w.core.channels && !Active(w.core.channels[c])
    case DeleteRecording(r) => r in w.core.recordings && w.core.recordings[r].status != InProgress
  }

  ghost function Next(capacity: nat, w: World, a: Action): World {
    match a
    case Accept(kind, c) =>
      if c !in w.core.channels then w
      else w.(core := w.core.(channels := w.core.channels[c := Intent(kind, w.core.channels[c])]),
              outbox := w.outbox + multiset{Request(kind, c)})
    case Publish(req) =>
      Push(w, req.kind, For(req.channel)).(outbox := w.outbox - multiset{req})
    case Inject(kind) => Push(w, kind, Malformed)
    case HandOver =>
      if w.connectQ == [] then w
      else w.(connectQ := w.connectQ[1..], handed := w.handed + [w.connectQ[0]])
    case RunConnect(env) =>
      if w.handed == [] then w
      else w.(core := ConnectStep(w.core, w.handed[0], capacity, env),
              handed := w.handed[1..], issued := w.issued + {env.newId})
    case Tick(envs) =>
      w.(core := Drain(Reap(w.core), w.batch, envs), batch := Batch([], [], []),
         issued := w.issued + Drawn(Order(w.batch), envs))
    case Die(c) =>
      if c !in w.core.sessions then w
      else w.(core := w.core.(sessions := w.core.sessions[c := w.core.sessions[c].(connected := false)]))
    case CreateChannel(c) => w.(core := w.core.(channels := w.core.channels[c := Idle]))
    case DeleteChannel(c) =>
      w.(core := w.core.(channels := w.core.channels - {c}, recordings := RowsNotOf(w.core.recordings, c)))
    case DeleteRecording(r) => w.(core := w.core.(recordings := w.core.recordings - {r}))
  }

  // ------------------------------------------------------------- jobs left

  predicate Queued(w: World, kind: Kind, c: ChannelId) {
    Request(kind, c) in w.outbox ||
    match kind
    case ConnectJob => For(c) in w.connectQ || For(c) in w.handed
    case DisconnectJob => For(c) in w.batch.disconnect
    case StopJob => For(c) in w.batch.stop
    case StartJob => For(c) in w.batch.start
  }

  function JobsOf(w: World, c: ChannelId): Jobs {
    Jobs(Queued(w, ConnectJob, c), Queued(w, DisconnectJob, c), Queued(w, StopJob, c), Queued(w, StartJob, c))
  }

  lemma RowsWithin(k: Core, c: ChannelId)
    ensures At(k, c).rows.Keys <= k.recordings.Keys
  {
  }

  lemma PushQueued(w: World, kind: Kind, job: Job, k: Kind, c: ChannelId)
    ensures Queued(Push(w, kind, job), k, c) <==> Queued(w, k, c) || (k == kind && job == For(c))
  {
  }

  /** Publishing, handing over and malformed payloads change no channel's jobs. */
  lemma QueueingJobs(capacity: nat, w: World, a: Action, k: Kind, c: ChannelId)
    requires Enabled(w, a) && (a.Publish? || a.Inject? || a.HandOver?)
    ensures Queued(Next(capacity, w, a), k, c) <==> Queued(w, k, c)
  {
    match a
    case Publish(req) =>
      PushQueued(w, req.kind, For(req.channel), k, c);
      var pushed := Push(w, req.kind, For(req.channel));
      var m := w.outbox - multiset{req};
      assert Request(k, c) != req ==> (Request(k, c) in m <==> Request(k, c) in w.outbox);
      if Request(k, c) == req { assert Queued(pushed, k, c); }
    case Inject(kind) => PushQueued(w, kind, Malformed, k, c);
    case HandOver =>
      assert w.connectQ == [w.connectQ[0]] + w.connectQ[1..];
  }
}
