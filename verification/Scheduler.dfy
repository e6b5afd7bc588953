/** The API's side: requests that commit an intent and publish a job, and the
    deletions, as they update the tables and queues. */
module Scheduler {
  import opened Common
  import opened ControlPlane
  import opened Protocol
  import opened Worker

  datatype Outcome = Accepted | NotFound | NotAllowed | PublishFailed

  /** What one request does to the channel table and the job queues. */
  datatype Desk = Desk(channels: map<ChannelId, Status>, queues: map<Kind, seq<Job>>)

  function Answer(d: Desk, kind: Kind, c: ChannelId, published: bool): Outcome {
    if c !in d.channels then NotFound
    else if !Allowed(kind, d.channels[c]) then NotAllowed
    else if published then Accepted
    else PublishFailed
  }

  /** Only an accepted request leaves a trace: the intent and one job. */
  function Posted(d: Desk, kind: Kind, c: ChannelId, published: bool): Desk
    requires kind in d.queues
  {
    if Answer(d, kind, c, published) != Accepted then d
    else Desk(d.channels[c := Intent(kind, d.channels[c])], d.queues[kind := d.queues[kind] + [For(c)]])
  }

  /** The scheduler's start: on an idle channel it connects first and, if that is
      accepted, reads the status again. */
  function StartAnswer(d: Desk, c: ChannelId, first: bool, second: bool): Outcome
    requires ConnectJob in d.queues
  {
    if c in d.channels && d.channels[c] == Idle then
      if !first then PublishFailed else Answer(Posted(d, ConnectJob, c, true), StartJob, c, second)
    else Answer(d, StartJob, c, second)
  }

  function StartEffect(d: Desk, c: ChannelId, first: bool, second: bool): Desk
    requires ConnectJob in d.queues && StartJob in d.queues
  {
    if c in d.channels && d.channels[c] == Idle then
      if !first then d else Posted(Posted(d, ConnectJob, c, true), StartJob, c, second)
    else Posted(d, StartJob, c, second)
  }

  /** The scheduler's view of the protocol's state. */
  function DeskOf(w: World): Desk {
    Desk(w.core.channels,
         map[ConnectJob := w.connectQ, DisconnectJob := w.batch.disconnect, StopJob := w.batch.stop, StartJob := w.batch.start])
  }

  function QueueOf(w: World, kind: Kind): seq<Job> {
    match kind
    case ConnectJob => w.connectQ
    case DisconnectJob => w.batch.disconnect
    case StopJob => w.batch.stop
    case StartJob => w.batch.start
  }

  lemma DeskQueue(w: World, kind: Kind)
    ensures kind in DeskOf(w).queues && DeskOf(w).queues[kind] == QueueOf(w, kind)
  {
  }

  lemma PushQueue(w: World, kind: Kind, c: ChannelId, k: Kind)
    ensures QueueOf(Push(w, kind, For(c)), k) == QueueOf(w, k) + if k == kind then [For(c)] else []
  {
    assert QueueOf(w, k) + [] == QueueOf(w, k);
  }

  lemma PushIsPosted(w: World, kind: Kind, c: ChannelId)
    ensures DeskOf(Push(w, kind, For(c))) ==
            Desk(w.core.channels, DeskOf(w).queues[kind := DeskOf(w).queues[kind] + [For(c)]])
  {
    var q, q0 := DeskOf(Push(w, kind, For(c))).queues, DeskOf(w).queues;
    forall k: Kind ensures k in q && k in q0 && q[k] == if k == kind then q0[k] + [For(c)] else q0[k] {
      DeskQueue(w, k);
      DeskQueue(Push(w, kind, For(c)), k);
      PushQueue(w, kind, c, k);
    }
    assert q == q0[kind := q0[kind] + [For(c)]];
  }

  /** A request nobody interrupts is the protocol's accept and publish; a refused
      or unpublished one is no step at all. */
  lemma EffectIsProtocol(capacity: nat, w: World, kind: Kind, c: ChannelId, published: bool)
    ensures var d := Posted(DeskOf(w), kind, c, published);
      if Answer(DeskOf(w), kind, c, published) == Accepted
      then Enabled(w, Accept(kind, c))
           && var w1 := Next(capacity, w, Accept(kind, c));
              Enabled(w1, Publish(Request(kind, c)))
              && d == DeskOf(Next(capacity, w1, Publish(Request(kind, c))))
      else d == DeskOf(w)
  {
    if Answer(DeskOf(w), kind, c, published) == Accepted {
      var w1 := Next(capacity, w, Accept(kind, c));
      assert Request(kind, c) in w1.outbox;
      PushIsPosted(w1, kind, c);
    }
  }

  /** The start request, accepted on an idle channel, leaves a connect and a start
      job and an intent to connect; on a connected one an intent to record. */
  lemma StartAccepted(d: Desk, c: ChannelId, first: bool, second: bool)
    requires ConnectJob in d.queues && StartJob in d.queues && StartAnswer(d, c, first, second) == Accepted
    ensures var d' := StartEffect(d, c, first, second);
      && c in d.channels
      && (d.channels[c] == Idle ==>
            d' == Desk(d.channels[c := Connecting],
                       d.queues[ConnectJob := d.queues[ConnectJob] + [For(c)]][StartJob := d.queues[StartJob] + [For(c)]]))
      && (d.channels[c] == Connected ==>
            d' == Desk(d.channels[c := Starting], d.queues[StartJob := d.queues[StartJob] + [For(c)]]))
      && (d.channels[c] in {Connecting, Starting} ==>
            d' == Desk(d.channels, d.queues[StartJob := d.queues[StartJob] + [For(c)]]))
      && d.channels[c] in {Idle, Connected, Connecting, Starting}
  {
  }

  class Scheduler {
    const db: Database
    const broker: Broker

    constructor (db: Database, broker: Broker)
      ensures this.db == db && this.broker == broker
    {
      this.db, this.broker := db, broker;
    }

    ghost function View(): Desk
      reads this, db, broker
    {
      Desk(db.channels, map k: Kind | k in {ConnectJob, DisconnectJob, StopJob, StartJob} :: broker.Queue(k))
    }

    /** `_commit_then_publish`: the intent is stored first and undone if the job
        cannot be queued. */
    method CommitThenPublish(c: ChannelId, kind: Kind, newStatus: Option<Status>, published: bool) returns (ok: bool)
      requires c in db.channels
      modifies db`channels, broker`lists
      ensures ok == published
      ensures !ok ==> db.channels == old(db.channels) && broker.lists == old(broker.lists)
      ensures ok ==> db.channels == old(db.channels)[c := newStatus.GetOr(old(db.channels)[c])]
      ensures ok ==> broker.Queue(kind) == old(broker.Queue(kind)) + [For(c)]
                     && forall k :: k != kind ==> broker.Queue(k) == old(broker.Queue(k))
    {
      var previous := db.channels[c];
      if newStatus.Some? {
        db.channels := db.channels[c := newStatus.value];
      }
      if !published {
        if newStatus.Some? {
          db.channels := db.channels[c := previous];
        }
        return false;
      }
      broker.Publish(kind, For(c));
      return true;
    }

    method Post(kind: Kind, c: ChannelId, newStatus: Option<Status>, published: bool) returns (out: Outcome)
      requires c in db.channels && Allowed(kind, db.channels[c])
      requires newStatus.GetOr(db.channels[c]) == Intent(kind, db.channels[c])
      modifies db`channels, broker`lists
      ensures out == Answer(old(View()), kind, c, published)
      ensures View() == Posted(old(View()), kind, c, published)
    {
      ghost var d := View();
      var ok := CommitThenPublish(c, kind, newStatus, published);
      out := if ok then Accepted else PublishFailed;
      if ok {
        assert View().channels == Posted(d, kind, c, published).channels;
        assert View().queues == d.queues[kind := d.queues[kind] + [For(c)]];
      } else {
        assert View().queues == d.queues;
      }
    }

    method ConnectChannel(c: ChannelId, published: bool) returns (out: Outcome)
      modifies db`channels, broker`lists
      ensures out == Answer(old(View()), ConnectJob, c, published)
      ensures View() == Posted(old(View()), ConnectJob, c, published)
    {
      if c !in db.channels {
        return NotFound;
      }
      if db.channels[c] !in {Idle, Error} {
        return NotAllowed;
      }
      out := Post(ConnectJob, c, Some(Connecting), published);
    }

    method DisconnectChannel(c: ChannelId, published: bool) returns (out: Outcome)
      modifies db`channels, broker`lists
      ensures out == Answer(old(View()), DisconnectJob, c, published)
      ensures View() == Posted(old(View()), DisconnectJob, c, published)
    {
      if c !in db.channels {
        return NotFound;
      }
      if db.channels[c] !in {Connecting, Connected, Recording, Disconnecting, Starting, Stopping} {
        return NotAllowed;
      }
      out := Post(DisconnectJob, c, Some(Disconnecting), published);
    }

    /** `first` and `second`: whether the connect job and the start job can be
        queued. */
    method StartRecording(c: ChannelId, first: bool, second: bool) returns (out: Outcome)
      modifies db`channels, broker`lists
      ensures out == StartAnswer(old(View()), c, first, second)
      ensures View() == StartEffect(old(View()), c, first, second)
    {
      if c !in db.channels {
        return NotFound;
      }
      if db.channels[c] == Idle {
        out := ConnectChannel(c, first);
        if out != Accepted {
          return;
        }
      }
      if db.channels[c] !in {Connected, Connecting, Starting} {
        return NotAllowed;
      }
      out := Post(StartJob, c, if db.channels[c] == Connected then Some(Starting) else None, second);
    }

    method StopRecording(c: ChannelId, published: bool) returns (out: Outcome)
      modifies db`channels, broker`lists
      ensures out == Answer(old(View()), StopJob, c, published)
      ensures View() == Posted(old(View()), StopJob, c, published)
    {
      if c !in db.channels {
        return NotFound;
      }
      if db.channels[c] !in {Recording, Starting, Stopping} {
        return NotAllowed;
      }
      out := Post(StopJob, c, Some(Stopping), published);
    }

    /** `reset_etr290`; `srt`: the channel's protocol. */
    method ResetEtr290(c: ChannelId, srt: bool, published: bool) returns (out: Outcome)
      modifies broker`resets
      ensures out == if c !in db.channels then NotFound
                     else if !srt || !Active(db.channels[c]) || db.channels[c] == Disconnecting then NotAllowed
                     else if published then Accepted else PublishFailed
      ensures broker.resets == if out == Accepted then old(broker.resets) + [For(c)] else old(broker.resets)
    {
      if c !in db.channels {
        return NotFound;
      }
      if !srt {
        return NotAllowed;
      }
      if db.channels[c] !in {Connecting, Connected, Recording, Starting, Stopping} {
        return NotAllowed;
      }
      if !published {
        return PublishFailed;
      }
      broker.resets := broker.resets + [For(c)];
      return Accepted;
    }

    // ------------------------------------------------------------- deletions

    /** `_delete_recording`: its asset row, if any, then the row. */
    method RemoveRecording(r: RecordingId)
      requires r in db.recordings
      modifies db`recordings, db`assets
      ensures db.recordings == old(db.recordings) - {r} && db.assets == old(db.assets) - {r}
    {
      if r in db.assets {
        db.assets := db.assets - {r};
      }
      db.recordings := db.recordings - {r};
    }

    /** `delete_channel`: the status guard, then every recording row with its asset,
        then the channel. */
    method DeleteChannel(c: ChannelId) returns (out: Outcome)
      modifies db`channels, db`recordings, db`assets
      ensures out == if c !in old(db.channels) then NotFound
                     else if Active(old(db.channels)[c]) then NotAllowed
                     else Accepted
      ensures out != Accepted ==>
                db.channels == old(db.channels) && db.recordings == old(db.recordings) && db.assets == old(db.assets)
      ensures out == Accepted ==>
                && db.channels == old(db.channels) - {c} && db.recordings == RowsNotOf(old(db.recordings), c)
                && db.assets == old(db.assets) - RowsOf(old(db.recordings), c).Keys
    {
      if c !in db.channels {
        return NotFound;
      }
      if db.channels[c] !in {Idle, Error} {
        return NotAllowed;
      }
      ghost var rows, assets := db.recordings, db.assets;
      var todo := set r | r in db.recordings && db.recordings[r].channel == c;
      while todo != {}
        invariant forall r :: r in todo <==> r in db.recordings && db.recordings[r].channel == c
        invariant db.channels == old(db.channels) && RowsNotOf(db.recordings, c) == RowsNotOf(rows, c)
        invariant todo <= RowsOf(rows, c).Keys && db.assets == assets - (RowsOf(rows, c).Keys - todo)
        decreases todo
      {
        var r :| r in todo;
        RemoveRecording(r);
        todo := todo - {r};
      }
      assert db.recordings == RowsNotOf(db.recordings, c);
      db.channels := db.channels - {c};
      return Accepted;
    }

    /** `delete_recording`: refused while the row is in progress. */
    method DeleteRecording(r: RecordingId) returns (out: Outcome)
      modifies db`recordings, db`assets
      ensures out == if r !in old(db.recordings) then NotFound
                     else if old(db.recordings)[r].status == InProgress then NotAllowed
                     else Accepted
      ensures db.recordings == if out == Accepted then old(db.recordings) - {r} else old(db.recordings)
      ensures db.assets == if out == Accepted then old(db.assets) - {r} else old(db.assets)
    {
      if r !in db.recordings {
        return NotFound;
      }
      if db.recordings[r].status == InProgress {
        return NotAllowed;
      }
      RemoveRecording(r);
      return Accepted;
    }
  }
}
