/** The end of a tick: ETR 290 resets, read from a list of their own after the
    other queues and forwarded once the handlers have run. */
module Resets {
  import opened ControlPlane
  import opened Handlers
  import opened Protocol

  /** The channels whose sessions get a reset, in the order of the jobs. */
  function Forwarded(ids: seq<ChannelId>, disconnected: set<ChannelId>, sessions: set<ChannelId>): seq<ChannelId> {
    if ids == [] then []
    else
      var before, last := Forwarded(ids[..|ids| - 1], disconnected, sessions), ids[|ids| - 1];
      if last !in disconnected && last in sessions then before + [last] else before
  }

  /** The last loop of `_drain_control_queues`, with `_handle_etr290_reset`. */
  method ForwardResets(ids: seq<ChannelId>, disconnected: set<ChannelId>, sessions: set<ChannelId>)
    returns (forwarded: seq<ChannelId>)
    ensures forwarded == Forwarded(ids, disconnected, sessions)
  {
    forwarded := [];
    for i := 0 to |ids|
      invariant forwarded == Forwarded(ids[..i], disconnected, sessions)
    {
      assert ids[..i + 1][..i] == ids[..i];
      if ids[i] in disconnected {
        continue;
      }
      if ids[i] in sessions {
        forwarded := forwarded + [ids[i]];
      }
    }
    assert ids[..|ids|] == ids;
  }

  lemma {:induction false} ForwardedMember(ids: seq<ChannelId>, disconnected: set<ChannelId>, sessions: set<ChannelId>, c: ChannelId)
    ensures c in Forwarded(ids, disconnected, sessions) <==> c in ids && c !in disconnected && c in sessions
  {
    if ids != [] {
      var init, last := ids[..|ids| - 1], ids[|ids| - 1];
      ForwardedMember(init, disconnected, sessions, c);
      assert ids == init + [last];
    }
  }

  /** The channels the tick disconnects. */
  function Disconnected(b: Batch): set<ChannelId> {
    set c | c in Ids(b.disconnect)
  }

  lemma SessionAt(k: Core, c: ChannelId)
    ensures At(k, c).session.Some? <==> c in k.sessions
  {
  }

  lemma SessionAfterOp(c: ChannelId, cell: Cell, b: Batch, env: Env)
    ensures DrainEffect(c, cell, b, env).cell.session.Some? <==> cell.session.Some? && For(c) !in b.disconnect
  {
  }

  /** After the handlers of a tick a channel has a session exactly when it had one
      before and no disconnect was queued for it. */
  lemma SessionsAfterDrain(k: Core, b: Batch, envs: ChannelId -> Env, c: ChannelId)
    requires FreshFor(Order(b), envs, k.recordings.Keys)
    ensures c in Drain(k, b, envs).sessions <==> c in k.sessions && For(c) !in b.disconnect
  {
    OrderSound(b);
    RunOpsAt(k, Order(b), b, envs);
    SessionAfterOp(c, At(k, c), b, envs(c));
    SessionAt(Drain(k, b, envs), c);
    SessionAt(k, c);
    assert c !in Order(b) ==> For(c) !in b.disconnect;
  }

  /** A queued reset reaches its channel exactly when the channel had a session
      when the handlers started and the same tick does not disconnect it, whatever
      else was queued.  The set of disconnected channels the tick keeps decides
      nothing: their sessions are gone already. */
  lemma ResetReaches(k: Core, b: Batch, envs: ChannelId -> Env, jobs: seq<Job>, c: ChannelId)
    requires FreshFor(Order(b), envs, k.recordings.Keys)
    ensures var sessions := Drain(k, b, envs).sessions.Keys;
      && (c in Forwarded(Ids(jobs), Disconnected(b), sessions) <==>
            For(c) in jobs && c in k.sessions && For(c) !in b.disconnect)
      && (c in Forwarded(Ids(jobs), {}, sessions) <==> c in Forwarded(Ids(jobs), Disconnected(b), sessions))
  {
    var sessions := Drain(k, b, envs).sessions.Keys;
    SessionsAfterDrain(k, b, envs, c);
    IdsMember(b.disconnect, c);
    IdsMember(jobs, c);
    ForwardedMember(Ids(jobs), Disconnected(b), sessions, c);
    ForwardedMember(Ids(jobs), {}, sessions, c);
  }
}
