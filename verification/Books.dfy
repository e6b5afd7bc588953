/** The part of the protocol's invariant that no crash can break: the published
    events match the completed rows, no identifier is used twice, what the worker
    remembers is in progress, and sessions stay within capacity. */
module Books {
  import opened Common
  import opened ControlPlane
  import opened Handlers
  import opened Protocol

  function Count(events: seq<Event>, r: RecordingId): nat {
    if events == [] then 0
    else Count(events[..|events| - 1], r) + if events[|events| - 1].recording == r then 1 else 0
  }

  /** A completed row has been published exactly once, any other row never; no
      identifier is reused. */
  ghost predicate Balanced(k: Core, issued: set<RecordingId>) {
    && k.recordings.Keys <= issued
    && (forall r: RecordingId :: Count(k.events, r) <= 1)
    && (forall r: RecordingId :: r !in issued ==> Count(k.events, r) == 0)
    && (forall r: RecordingId :: r in k.recordings ==>
          Count(k.events, r) == if k.recordings[r].status == Completed then 1 else 0)
  }

  ghost predicate Ledger(k: Core, issued: set<RecordingId>) {
    Balanced(k, issued) && forall c :: Tracked(At(k, c))
  }

  ghost predicate InBooks(capacity: nat, w: World) {
    Ledger(w.core, w.issued) && |w.core.sessions| <= capacity
  }

  /** Finished rows stay as they are, and none is created again. */
  ghost predicate Lasts(before: Rows, issued: set<RecordingId>, after: Rows) {
    && (forall r :: r in before && r in after && before[r].status != InProgress ==> after[r].status == before[r].status)
    && (forall r :: r in issued && r in after ==> r in before)
  }

  lemma CountOne(events: seq<Event>, rs: seq<RecordingId>, c: ChannelId, r: RecordingId)
    requires |rs| <= 1
    ensures Count(events + EventsFor(rs, c), r) == Count(events, r) + if r in rs then 1 else 0
  {
    var all := events + EventsFor(rs, c);
    if rs == [] {
      assert all == events;
    } else {
      assert all[..|all| - 1] == events;
    }
  }

  lemma EffectOwns(k: Core, issued: set<RecordingId>, c: ChannelId, e: Effect, newId: RecordingId)
    requires k.recordings.Keys <= issued && newId !in issued && OnlyAdds(c, At(k, c).rows, e, newId)
    requires Settles(At(k, c).rows, e)
    ensures OwnRows(k, c, e.cell.rows)
  {
    forall r | r in e.cell.rows ensures e.cell.rows[r].channel == c && (r in k.recordings ==> k.recordings[r].channel == c) {
      assert r in At(k, c).rows || r == newId;
    }
  }

  lemma PutBalanced(k: Core, issued: set<RecordingId>, c: ChannelId, e: Effect, newId: RecordingId)
    requires Balanced(k, issued) && newId !in issued && OnlyAdds(c, At(k, c).rows, e, newId)
    requires Settles(At(k, c).rows, e)
    ensures Balanced(Put(k, c, e), issued + {newId})
    ensures Lasts(k.recordings, issued, Put(k, c, e).recordings)
  {
    var k' := Put(k, c, e);
    var rows := At(k, c).rows;
    forall r: RecordingId ensures Count(k'.events, r) == Count(k.events, r) + if r in e.completed then 1 else 0 {
      CountOne(k.events, e.completed, c, r);
    }
    forall r: RecordingId
      ensures Count(k'.events, r) <= 1
      ensures r in k'.recordings ==> Count(k'.events, r) == if k'.recordings[r].status == Completed then 1 else 0
    {
      if r in e.cell.rows {
        assert k'.recordings[r] == e.cell.rows[r];
        assert r in rows ==> rows[r] == k.recordings[r];
        assert r !in rows ==> r == newId;
      } else {
        assert r !in e.completed;
      }
    }
    forall r | r in k.recordings && r in k'.recordings && k.recordings[r].status != InProgress
      ensures k'.recordings[r].status == k.recordings[r].status
    {
      assert r in e.cell.rows ==> r in rows;
    }
  }

  /** Any effect that persists on its channel keeps the tables in order. */
  lemma PutLedger(k: Core, issued: set<RecordingId>, c: ChannelId, e: Effect, env: Env)
    requires Ledger(k, issued) && env.newId !in issued && Persists(c, At(k, c), e, env)
    ensures Ledger(Put(k, c, e), issued + {env.newId}) && Lasts(k.recordings, issued, Put(k, c, e).recordings)
    ensures At(Put(k, c, e), c) == e.cell
    ensures forall d :: d != c ==> At(Put(k, c, e), d) == At(k, d)
  {
    var k' := Put(k, c, e);
    EffectOwns(k, issued, c, e, env.newId);
    PutOwn(k, c, e);
    PutBalanced(k, issued, c, e, env.newId);
    forall d | d != c ensures At(k', d) == At(k, d) { PutOther(k, c, e, d); }
    forall d ensures Tracked(At(k', d)) { if d != c { assert At(k', d) == At(k, d); } }
  }

  lemma {:induction false} RunOpsLedger(k: Core, issued: set<RecordingId>, order: seq<ChannelId>, b: Batch, envs: ChannelId -> Env)
    requires Ledger(k, issued) && Distinct(order) && FreshFor(order, envs, issued)
    ensures var k' := RunOps(k, order, b, envs);
      && Ledger(k', issued + Drawn(order, envs)) && Lasts(k.recordings, issued, k'.recordings)
      && k'.sessions.Keys <= k.sessions.Keys
  {
    if order == [] {
      assert issued + Drawn(order, envs) == issued;
    } else {
      var n := |order| - 1;
      var c, init := order[n], order[..n];
      assert order == init + [c] && c !in init;
      RunOpsLedger(k, issued, init, b, envs);
      var before, sofar := RunOps(k, init, b, envs), issued + Drawn(init, envs);
      assert envs(c).newId !in sofar;
      OneOpLedger(before, sofar, c, b, envs(c));
      assert sofar + {envs(c).newId} == issued + Drawn(order, envs);
    }
  }

  lemma OneOpLedger(k: Core, issued: set<RecordingId>, c: ChannelId, b: Batch, env: Env)
    requires Ledger(k, issued) && env.newId !in issued
    ensures var k' := Put(k, c, DrainEffect(c, At(k, c), b, env));
      && Ledger(k', issued + {env.newId}) && Lasts(k.recordings, issued, k'.recordings)
      && k'.sessions.Keys <= k.sessions.Keys
  {
    var cell := At(k, c);
    RowsWithin(k, c);
    ApplyPersists(c, cell, Resolve(cell.status, For(c) in b.disconnect, For(c) in b.stop, For(c) in b.start), env);
    PutLedger(k, issued, c, DrainEffect(c, cell, b, env), env);
  }

  lemma ReapLedger(k: Core, issued: set<RecordingId>)
    requires Ledger(k, issued)
    ensures Ledger(Reap(k), issued) && Lasts(k.recordings, issued, Reap(k).recordings)
  {
    forall c ensures Tracked(At(Reap(k), c)) {
      ReapAt(k, c);
      HeartbeatPersists(c, At(k, c), Env(true, true, true, Acked, true, 0, 0));
    }
    forall r | r in k.recordings
      ensures Reap(k).recordings[r] == k.recordings[r]
              || (k.recordings[r].status == InProgress && Reap(k).recordings[r].status == Failed)
    {
      assert r in RowsOf(k.recordings, k.recordings[r].channel);
    }
  }

  lemma Smaller<V>(a: map<ChannelId, V>, b: map<ChannelId, V>)
    requires a.Keys <= b.Keys
    ensures |a| <= |b|
  {
    CardinalityMonotone(a.Keys, b.Keys);
    assert |a| == |a.Keys| && |b| == |b.Keys|;
  }

  lemma CardinalityMonotone<T>(a: set<T>, b: set<T>)
    requires a <= b
    ensures |a| <= |b|
  {
    assert b == a + (b - a);
  }

  lemma ConnectCapacity(k: Core, c: ChannelId, capacity: nat, e: Effect)
    requires |k.sessions| <= capacity
    requires |k.sessions| >= capacity && e.cell.session.Some? ==> c in k.sessions
    ensures |Put(k, c, e).sessions| <= capacity
  {
  }

  lemma TickBooks(capacity: nat, w: World, envs: ChannelId -> Env)
    requires InBooks(capacity, w) && Enabled(w, Tick(envs))
    ensures var w' := Next(capacity, w, Tick(envs));
      && InBooks(capacity, w') && Lasts(w.core.recordings, w.issued, w'.core.recordings)
      && |w'.core.sessions| <= |w.core.sessions|
  {
    OrderSound(w.batch);
    ReapLedger(w.core, w.issued);
    RunOpsLedger(Reap(w.core), w.issued, Order(w.batch), w.batch, envs);
    Smaller(Next(capacity, w, Tick(envs)).core.sessions, w.core.sessions);
  }

  lemma RunConnectBooks(capacity: nat, w: World, env: Env)
    requires InBooks(capacity, w) && Enabled(w, RunConnect(env))
    ensures var w' := Next(capacity, w, RunConnect(env));
      InBooks(capacity, w') && Lasts(w.core.recordings, w.issued, w'.core.recordings)
  {
    if w.handed[0].For? {
      var c := w.handed[0].channel;
      var cell, full := At(w.core, c), |w.core.sessions| >= capacity;
      RowsWithin(w.core, c);
      ConnectPersists(c, cell, full, env);
      var e := HandleConnect(c, cell, full, env);
      PutLedger(w.core, w.issued, c, e, env);
      ConnectCapacity(w.core, c, capacity, e);
    }
  }

  /** A status change the scheduler makes is one the worker's memory allows. */
  lemma AcceptBooks(capacity: nat, w: World, kind: Kind, c: ChannelId)
    requires InBooks(capacity, w) && Enabled(w, Accept(kind, c))
    ensures InBooks(capacity, Next(capacity, w, Accept(kind, c)))
  {
    var w' := Next(capacity, w, Accept(kind, c));
    forall d ensures Tracked(At(w'.core, d)) {
      assert Tracked(At(w.core, d));
      if d != c { assert At(w'.core, d) == At(w.core, d); }
    }
  }

  lemma DieBooks(capacity: nat, w: World, c: ChannelId)
    requires InBooks(capacity, w) && Enabled(w, Die(c))
    ensures InBooks(capacity, Next(capacity, w, Die(c)))
  {
    var w' := Next(capacity, w, Die(c));
    forall d ensures Tracked(At(w'.core, d)) { assert Tracked(At(w.core, d)); }
    Smaller(w'.core.sessions, w.core.sessions);
  }

  lemma TableBooks(capacity: nat, w: World, a: Action)
    requires InBooks(capacity, w) && Enabled(w, a)
    requires a.CreateChannel? || a.DeleteChannel? || a.DeleteRecording?
    ensures InBooks(capacity, Next(capacity, w, a))
  {
    var w' := Next(capacity, w, a);
    forall d ensures Tracked(At(w'.core, d)) {
      assert Tracked(At(w.core, d));
      TableRows(capacity, w, a, d);
    }
  }

  /** What a deletion leaves of a channel's rows. */
  lemma TableRows(capacity: nat, w: World, a: Action, d: ChannelId)
    requires a.CreateChannel? || a.DeleteChannel? || a.DeleteRecording?
    ensures At(Next(capacity, w, a).core, d).rows ==
            if a.DeleteChannel? && a.channel == d then map[]
            else if a.DeleteRecording? then At(w.core, d).rows - {a.recording}
            else At(w.core, d).rows
  {
  }

  /** Every step keeps the books; finished rows last. */
  lemma StepBooks(capacity: nat, w: World, a: Action)
    requires InBooks(capacity, w) && Enabled(w, a)
    ensures var w' := Next(capacity, w, a);
      InBooks(capacity, w') && Lasts(w.core.recordings, w.issued, w'.core.recordings) && w.issued <= w'.issued
  {
    match a
    case Accept(kind, c) => AcceptBooks(capacity, w, kind, c);
    case RunConnect(env) => RunConnectBooks(capacity, w, env);
    case Tick(envs) => TickBooks(capacity, w, envs);
    case Die(c) => DieBooks(capacity, w, c);
    case Publish(_) =>
    case Inject(_) =>
    case HandOver =>
    case _ => TableBooks(capacity, w, a);
  }
}
