/** Stop and start jobs queued together for one channel: the worker's rule is that
    the last accepted request wins.  Exactly when it does. */
module Intents {
  import opened Common
  import opened ControlPlane
  import opened Handlers
  import opened Protocol
  import opened Steps
  import opened Runs

  /** Nothing else is asked of the channel, and its row is neither made nor removed. */
  predicate Unasked(a: Action, c: ChannelId) {
    match a
    case Accept(_, d) => d != c
    case CreateChannel(d) => d != c
    case DeleteChannel(d) => d != c
    case _ => true
  }

  predicate Both(b: Batch, c: ChannelId) {
    For(c) in b.start && For(c) in b.stop && For(c) !in b.disconnect
  }

  /** The handler the next tick gives the channel. */
  function Winner(w: World, c: ChannelId): Op {
    var st := Lookup(w.core.channels, c);
    var beaten := if Dead(w.core, c) && st.Some? && Active(st.value) then Some(Error) else st;
    Resolve(beaten, For(c) in w.batch.disconnect, For(c) in w.batch.stop, For(c) in w.batch.start)
  }

  lemma WinnerRuns(capacity: nat, w: World, c: ChannelId, envs: ChannelId -> Env)
    requires Invariant(capacity, w) && Enabled(w, Tick(envs)) && Wanted(w.batch, c)
    ensures At(Next(capacity, w, Tick(envs)).core, c) ==
            Apply(c, Heartbeat(At(w.core, c)).cell, Winner(w, c), envs(c)).cell
  {
    TickAt(capacity, w, c, envs);
  }

  function Asked(kind: Kind): Op {
    match kind
    case ConnectJob => NoOp
    case DisconnectJob => Disconnect
    case StopJob => Stop
    case StartJob => Start
  }

  predicate Stops(k: Core, c: ChannelId) {
    Lookup(k.channels, c) == Some(Stopping)
  }

  /** No handler writes stopping. */
  lemma OpNeverStops(c: ChannelId, cell: Cell, op: Op, env: Env)
    requires cell.status != Some(Stopping)
    ensures Apply(c, cell, op, env).cell.status != Some(Stopping)
    ensures Heartbeat(cell).cell.status != Some(Stopping)
  {
  }

  lemma ConnectNeverStops(c: ChannelId, cell: Cell, full: bool, env: Env)
    requires cell.status != Some(Stopping)
    ensures HandleConnect(c, cell, full, env).cell.status != Some(Stopping)
  {
  }

  lemma TickNeverStops(capacity: nat, w: World, envs: ChannelId -> Env, c: ChannelId)
    requires Invariant(capacity, w) && Enabled(w, Tick(envs)) && !Stops(w.core, c)
    ensures !Stops(Next(capacity, w, Tick(envs)).core, c)
  {
    var cell := Heartbeat(At(w.core, c)).cell;
    TickAt(capacity, w, c, envs);
    OpNeverStops(c, At(w.core, c), NoOp, envs(c));
    OpNeverStops(c, cell, Resolve(cell.status, For(c) in w.batch.disconnect, For(c) in w.batch.stop, For(c) in w.batch.start),
                 envs(c));
  }

  lemma RunConnectNeverStops(capacity: nat, w: World, env: Env, c: ChannelId)
    requires Invariant(capacity, w) && Enabled(w, RunConnect(env)) && !Stops(w.core, c)
    ensures !Stops(Next(capacity, w, RunConnect(env)).core, c)
  {
    if w.handed[0] == For(c) {
      ConnectAt(capacity, w, env);
      ConnectNeverStops(c, At(w.core, c), |w.core.sessions| >= capacity, env);
    } else if w.handed[0].For? {
      ConnectElsewhere(capacity, w, env, c);
    }
  }

  lemma StepNeverStops(capacity: nat, w: World, a: Action, c: ChannelId)
    requires Invariant(capacity, w) && Enabled(w, a) && Unasked(a, c) && !Stops(w.core, c)
    ensures !Stops(Next(capacity, w, a).core, c)
  {
    match a
    case Tick(envs) => TickNeverStops(capacity, w, envs, c);
    case RunConnect(env) => RunConnectNeverStops(capacity, w, env, c);
    case _ =>
  }

  /** Only an accepted stop makes a channel stopping. */
  lemma {:induction false} NeverStops(capacity: nat, w: World, rest: seq<Action>, c: ChannelId)
    requires Invariant(capacity, w) && Run(capacity, w, rest) && !Stops(w.core, c)
    requires forall i :: 0 <= i < |rest| ==> Unasked(rest[i], c)
    ensures !Stops(Exec(capacity, w, rest).core, c)
  {
    if rest != [] {
      var init, last := rest[..|rest| - 1], rest[|rest| - 1];
      NeverStops(capacity, w, init, c);
      RunKeeps(capacity, w, init);
      StepNeverStops(capacity, Exec(capacity, w, init), last, c);
    }
  }

  /** A stop or start request, then any run, handlers included, in which nothing
      else is asked of the channel.  When it ends with both jobs waiting, the next
      tick runs what was asked last exactly when that was a start, or the row still
      says stopping over a session that is not dead. */
  lemma LastIntentWinsIff(capacity: nat, w: World, kind: Kind, c: ChannelId, rest: seq<Action>)
    requires Invariant(capacity, w) && Enabled(w, Accept(kind, c)) && (kind == StopJob || kind == StartJob)
    requires Run(capacity, Next(capacity, w, Accept(kind, c)), rest)
    requires forall i :: 0 <= i < |rest| ==> Unasked(rest[i], c)
    requires Both(Exec(capacity, Next(capacity, w, Accept(kind, c)), rest).batch, c)
    ensures var end := Exec(capacity, Next(capacity, w, Accept(kind, c)), rest);
      Winner(end, c) == Asked(kind) <==> kind == StartJob || (Stops(end.core, c) && !Dead(end.core, c))
  {
    StepKeeps(capacity, w, Accept(kind, c));
    if kind == StartJob {
      NeverStops(capacity, Next(capacity, w, Accept(kind, c)), rest, c);
    }
  }

  /** No handler of the channel runs: ticks find it alive and without a job, and
      connect jobs are for others. */
  ghost predicate LeavesAlone(w: World, a: Action, c: ChannelId) {
    match a
    case Tick(_) => !Wanted(w.batch, c) && !Dead(w.core, c)
    case RunConnect(_) => w.handed != [] && w.handed[0] != For(c)
    case _ => Unasked(a, c)
  }

  ghost predicate LeftAlone(capacity: nat, w: World, rest: seq<Action>, c: ChannelId) {
    rest == [] ||
    (LeftAlone(capacity, w, rest[..|rest| - 1], c)
     && LeavesAlone(Exec(capacity, w, rest[..|rest| - 1]), rest[|rest| - 1], c))
  }

  lemma StatusStays(capacity: nat, w: World, a: Action, c: ChannelId)
    requires Invariant(capacity, w) && Enabled(w, a) && LeavesAlone(w, a, c)
    ensures Lookup(Next(capacity, w, a).core.channels, c) == Lookup(w.core.channels, c)
  {
    match a
    case Tick(envs) =>
      TickAt(capacity, w, c, envs);
      assert At(Next(capacity, w, a).core, c) == At(w.core, c);
    case RunConnect(env) =>
      if w.handed[0].For? {
        ConnectElsewhere(capacity, w, env, c);
        assert At(Next(capacity, w, a).core, c) == At(w.core, c);
      }
    case _ =>
  }

  lemma {:induction false} StatusHolds(capacity: nat, w: World, rest: seq<Action>, c: ChannelId)
    requires Invariant(capacity, w) && Run(capacity, w, rest) && LeftAlone(capacity, w, rest, c)
    ensures Lookup(Exec(capacity, w, rest).core.channels, c) == Lookup(w.core.channels, c)
    ensures forall i :: 0 <= i < |rest| ==> Unasked(rest[i], c)
  {
    if rest != [] {
      var init, last := rest[..|rest| - 1], rest[|rest| - 1];
      StatusHolds(capacity, w, init, c);
      RunKeeps(capacity, w, init);
      StatusStays(capacity, Exec(capacity, w, init), last, c);
      assert forall i :: 0 <= i < |init| ==> rest[i] == init[i];
    }
  }

  /** With no handler of the channel in between, what was asked last wins unless it
      was a stop and the session has died since the last tick. */
  lemma UndisturbedIntentWinsIff(capacity: nat, w: World, kind: Kind, c: ChannelId, rest: seq<Action>)
    requires Invariant(capacity, w) && Enabled(w, Accept(kind, c)) && (kind == StopJob || kind == StartJob)
    requires Run(capacity, Next(capacity, w, Accept(kind, c)), rest)
    requires LeftAlone(capacity, Next(capacity, w, Accept(kind, c)), rest, c)
    requires Both(Exec(capacity, Next(capacity, w, Accept(kind, c)), rest).batch, c)
    ensures var end := Exec(capacity, Next(capacity, w, Accept(kind, c)), rest);
      Winner(end, c) == Asked(kind) <==> kind == StartJob || !Dead(end.core, c)
  {
    var w1 := Next(capacity, w, Accept(kind, c));
    StepKeeps(capacity, w, Accept(kind, c));
    StatusHolds(capacity, w1, rest, c);
    LastIntentWinsIff(capacity, w, kind, c, rest);
  }

  // ------------------------------------------------------ when a stop loses

  /** Two starts and a stop were accepted on a connected channel, and the first
      start is published. */
  predicate StopLast(w: World, c: ChannelId) {
    && Stops(w.core, c) && Lookup(w.core.sessions, c) == Some(Session(true, false))
    && For(c) in w.batch.start && For(c) !in w.batch.stop && For(c) !in w.batch.disconnect
    && Request(StartJob, c) in w.outbox && w.outbox[Request(StopJob, c)] == 1
  }

  function Requests(c: ChannelId): seq<Action> {
    [Accept(StartJob, c), Accept(StartJob, c), Accept(StopJob, c), Publish(Request(StartJob, c))]
  }

  lemma ThreeRequests(capacity: nat, w: World, c: ChannelId)
    requires Lookup(w.core.channels, c) == Some(Connected) && w.outbox == multiset{}
    ensures var three := [Accept(StartJob, c), Accept(StartJob, c), Accept(StopJob, c)]; var w3 := Exec(capacity, w, three);
      && Run(capacity, w, three) && Stops(w3.core, c) && w3.core.sessions == w.core.sessions && w3.batch == w.batch
      && w3.outbox == multiset{Request(StartJob, c), Request(StartJob, c), Request(StopJob, c)}
  {
    ExecThree(capacity, w, Accept(StartJob, c), Accept(StartJob, c), Accept(StopJob, c));
  }

  lemma FirstPublished(capacity: nat, w: World, c: ChannelId)
    requires Stops(w.core, c) && Lookup(w.core.sessions, c) == Some(Session(true, false))
    requires w.batch == Batch([], [], [])
    requires w.outbox == multiset{Request(StartJob, c), Request(StartJob, c), Request(StopJob, c)}
    ensures Enabled(w, Publish(Request(StartJob, c))) && StopLast(Next(capacity, w, Publish(Request(StartJob, c))), c)
  {
  }

  lemma StopLastReachable(capacity: nat, w: World, c: ChannelId)
    requires Lookup(w.core.channels, c) == Some(Connected)
    requires Lookup(w.core.sessions, c) == Some(Session(true, false))
    requires w.batch == Batch([], [], []) && w.outbox == multiset{}
    ensures Run(capacity, w, Requests(c)) && StopLast(Exec(capacity, w, Requests(c)), c)
  {
    var three := [Accept(StartJob, c), Accept(StartJob, c), Accept(StopJob, c)];
    ThreeRequests(capacity, w, c);
    FirstPublished(capacity, Exec(capacity, w, three), c);
    ExecSnoc(capacity, w, three, Publish(Request(StartJob, c)));
    assert three + [Publish(Request(StartJob, c))] == Requests(c);
  }

  /** The channel records. */
  predicate RecordingOn(w: World, c: ChannelId) {
    Lookup(w.core.channels, c) == Some(Recording) && Lookup(w.core.sessions, c) == Some(Session(true, true))
  }

  lemma FirstStartHandled(capacity: nat, w: World, c: ChannelId, envs: ChannelId -> Env)
    requires Invariant(capacity, w) && StopLast(w, c) && Enabled(w, Tick(envs)) && Working(envs(c))
    ensures RecordingOn(Next(capacity, w, Tick(envs)), c)
  {
    WinnerRuns(capacity, w, c, envs);
    StartedCell(c, At(w.core, c), envs(c));
    AtFields(w.core, c);
    AtFields(Next(capacity, w, Tick(envs)).core, c);
  }

  lemma AtFields(k: Core, c: ChannelId)
    ensures At(k, c).status == Lookup(k.channels, c) && At(k, c).session == Lookup(k.sessions, c)
  {
  }

  lemma StartedCell(c: ChannelId, cell: Cell, env: Env)
    requires cell.status.Some? && cell.session == Some(Session(true, false)) && Working(env)
    ensures var after := Apply(c, Heartbeat(cell).cell, Start, env).cell;
      after.status == Some(Recording) && after.session == Some(Session(true, true))
  {
  }

  lemma KeptCell(c: ChannelId, cell: Cell, env: Env)
    requires cell.status == Some(Recording) && cell.session == Some(Session(true, true)) && env.alive
    ensures var after := Apply(c, Heartbeat(cell).cell, Start, env).cell;
      after.status == Some(Recording) && after.session == Some(Session(true, true))
  {
  }

  lemma StartWins(capacity: nat, w: World, c: ChannelId, envs: ChannelId -> Env)
    requires Invariant(capacity, w) && RecordingOn(w, c) && Both(w.batch, c)
    requires Enabled(w, Tick(envs)) && envs(c).alive
    ensures RecordingOn(Next(capacity, w, Tick(envs)), c)
  {
    WinnerRuns(capacity, w, c, envs);
    AtFields(w.core, c);
    KeptCell(c, At(w.core, c), envs(c));
    AtFields(Next(capacity, w, Tick(envs)).core, c);
  }

  lemma LateJobsArrive(capacity: nat, w: World, c: ChannelId)
    requires w.batch == Batch([], [], []) && Request(StartJob, c) in w.outbox && w.outbox[Request(StopJob, c)] == 1
    ensures var w2 := Next(capacity, w, Publish(Request(StartJob, c)));
            var w3 := Next(capacity, w2, Publish(Request(StopJob, c)));
      && Enabled(w, Publish(Request(StartJob, c))) && Enabled(w2, Publish(Request(StopJob, c)))
      && Both(w3.batch, c) && w3.core == w.core && Request(StopJob, c) !in w3.outbox
  {
  }

  lemma LateStartWins(capacity: nat, w: World, c: ChannelId, envs: ChannelId -> Env)
    requires Invariant(capacity, w) && RecordingOn(w, c) && w.batch == Batch([], [], []) && envs(c).alive
    requires Request(StartJob, c) in w.outbox && w.outbox[Request(StopJob, c)] == 1
    ensures var w2 := Next(capacity, w, Publish(Request(StartJob, c)));
            var w3 := Next(capacity, w2, Publish(Request(StopJob, c)));
            var w4 := Next(capacity, w3, Tick(envs));
      && Enabled(w, Publish(Request(StartJob, c))) && Enabled(w2, Publish(Request(StopJob, c)))
      && (Enabled(w3, Tick(envs)) ==> RecordingOn(w4, c) && !Queued(w4, StopJob, c))
  {
    LateJobsArrive(capacity, w, c);
    var w2 := Next(capacity, w, Publish(Request(StartJob, c)));
    StepKeeps(capacity, w, Publish(Request(StartJob, c)));
    StepKeeps(capacity, w2, Publish(Request(StopJob, c)));
    var w3 := Next(capacity, w2, Publish(Request(StopJob, c)));
    if Enabled(w3, Tick(envs)) { StartWins(capacity, w3, c, envs); }
  }

  /** When a handler runs in between, a stop can lose, with the session alive: one
      of two accepted starts is handled after the stop was committed, which makes
      the row say recording again; the other, published late, then beats the stop.
      The channel goes on recording and the stop is gone. */
  lemma StaleStartBeatsStop(capacity: nat, w: World, c: ChannelId, first: ChannelId -> Env, second: ChannelId -> Env)
    requires Invariant(capacity, w) && StopLast(w, c)
    requires Enabled(w, Tick(first)) && Working(first(c)) && second(c).alive
    ensures var w1 := Next(capacity, w, Tick(first));
            var w2 := Next(capacity, w1, Publish(Request(StartJob, c)));
            var w3 := Next(capacity, w2, Publish(Request(StopJob, c)));
            var w4 := Next(capacity, w3, Tick(second));
      && Enabled(w1, Publish(Request(StartJob, c))) && Enabled(w2, Publish(Request(StopJob, c)))
      && (Enabled(w3, Tick(second)) ==> RecordingOn(w4, c) && !Queued(w4, StopJob, c))
  {
    TickKeeps(capacity, w, first);
    FirstStartHandled(capacity, w, c, first);
    LateStartWins(capacity, Next(capacity, w, Tick(first)), c, second);
  }
}
