/** What the SRT child publishes of the monitor's snapshot: polls over a snapshot
    file that may be missing or unreadable, with the last available snapshot held
    in memory. */
module Freshness {

  import opened Common

  /** The `available` member of a snapshot: only the first is the value true, the
      second stands for any other true-like value. */
  datatype Flag = Yes | TrueLike | No

  predicate Truthy(f: Flag) { f != No }

  /** `content` is the rest of the snapshot; `updated` is absent unless a number. */
  datatype Snap = Snap(available: Flag, updated: Option<real>, interval: Option<int>, content: string)

  datatype Payload = Payload(snap: Snap, drops: nat) | Stale(drops: nat)

  predicate Announces(p: Option<Payload>) {
    p.Some? && p.value.Payload? && p.value.snap.available == Yes
  }

  function Max(a: real, b: real): real { if a >= b then a else b }

  /** `max(MIN_FRESH_SEC, STALE_INTERVALS * interval)`; a missing or zero interval
      reads as 2. */
  function Lifetime(s: Snap): real {
    var interval := if s.interval.None? || s.interval.value == 0 then 2 else s.interval.value;
    Max(10.0, (3 * if interval < 1 then 1 else interval) as real)
  }

  /** `snapshot_is_fresh`. */
  predicate IsFresh(s: Snap, now: real) {
    Truthy(s.available) && s.updated.Some? && now - s.updated.value <= Lifetime(s)
  }

  /** `_etr290_status_payload`; `file` is the snapshot read, if any. */
  function StatusPayload(file: Option<Snap>, live: bool, drops: nat, last: Option<Snap>, now: real): Option<Payload> {
    if !live then None
    else match file {
      case None =>
        if last.None? then None
        else if IsFresh(last.value, now) then Some(Payload(last.value, drops))
        else if Truthy(last.value.available) then Some(Stale(drops))
        else None
      case Some(data) =>
        if data.available == Yes && !IsFresh(data, now) then Some(Stale(drops)) else Some(Payload(data, drops))
    }
  }

  /** `live`: buffers arrived less than two seconds ago. */
  datatype Event = Poll(file: Option<Snap>, live: bool, drops: nat, now: real) | Reset

  datatype Child = Child(last: Option<Snap>, published: Option<Payload>)

  function Step(c: Child, e: Event): Child {
    match e
    case Reset => c.(last := None)
    case Poll(file, live, drops, now) =>
      var p := StatusPayload(file, live, drops, c.last, now);
      Child(if p.Some? && p.value.Payload? && Truthy(p.value.snap.available) then Some(p.value.snap) else c.last, p)
  }

  function Run(events: seq<Event>): Child {
    if events == [] then Child(None, None) else Step(Run(events[..|events| - 1]), events[|events| - 1])
  }

  /** The snapshot was read from the file by the live poll `i`. */
  predicate ReadAt(events: seq<Event>, i: nat, s: Snap) {
    i < |events| && events[i].Poll? && events[i].live && events[i].file == Some(s)
  }

  predicate NoResetFrom(events: seq<Event>, i: nat) {
    forall j :: i <= j < |events| ==> !events[j].Reset?
  }

  predicate UnreadableFrom(events: seq<Event>, i: nat) {
    forall j :: i <= j < |events| ==> events[j].Poll? ==> !events[j].live || events[j].file.None?
  }

  /** The held snapshot has a source: a poll that read it, with no reset since. */
  lemma {:induction false} HeldHasSource(events: seq<Event>)
    requires Run(events).last.Some?
    ensures Truthy(Run(events).last.value.available)
    ensures exists i: nat :: ReadAt(events, i, Run(events).last.value) && NoResetFrom(events, i)
  {
    var n := |events| - 1;
    var before, s := events[..n], Run(events).last.value;
    assert events[n].Poll?;
    if ReadAt(events, n, s) && Truthy(s.available) {
      assert NoResetFrom(events, n);
    } else {
      assert Run(before).last == Run(events).last;
      HeldHasSource(before);
      var i: nat :| ReadAt(before, i, s) && NoResetFrom(before, i);
      assert ReadAt(events, i, s);
      assert forall j :: i <= j < n ==> events[j] == before[j];
      assert NoResetFrom(events, i);
    }
  }

  /** A payload with `available` true is published only while receiving, is not
      older than its lifetime, and was read from the file, at this poll or at an
      earlier one since which no reset came. */
  lemma AnnouncedIsFresh(events: seq<Event>)
    requires events != [] && events[|events| - 1].Poll? && Announces(Run(events).published)
    ensures var e := events[|events| - 1]; var s := Run(events).published.value.snap;
      && e.live && s.updated.Some? && e.now - s.updated.value <= Lifetime(s)
      && exists i: nat :: ReadAt(events, i, s) && NoResetFrom(events, i)
  {
    HeldHasSource(events);
  }

  /** Event `k` published a snapshot that is available. */
  predicate AnnouncedAt(events: seq<Event>, k: nat)
    requires k < |events|
  {
    Announces(Run(events[..k + 1]).published)
  }

  predicate Clocked(events: seq<Event>) {
    forall i, j :: 0 <= i < j < |events| && events[i].Poll? && events[j].Poll? ==> events[i].now <= events[j].now
  }

  /** While the file stays unreadable and no reset comes the held snapshot stays. */
  lemma {:induction false} HeldStays(events: seq<Event>, i: nat)
    requires i <= |events| && UnreadableFrom(events, i) && NoResetFrom(events, i)
    ensures Run(events).last == Run(events[..i]).last
  {
    if i < |events| {
      var n := |events| - 1;
      HeldStays(events[..n], i);
      assert events[..n][..i] == events[..i];
    } else {
      assert events[..i] == events;
    }
  }

  /** Exactly when a poll that cannot read the file still announces a snapshot:
      receiving, with one held that is `available` true and young enough; when the
      one held is too old the poll publishes `stale`. */
  lemma UnreadablePoll(events: seq<Event>, i: nat)
    requires i < |events| && UnreadableFrom(events, i) && NoResetFrom(events, i)
    ensures var e := events[|events| - 1]; var held := Run(events[..i]).last; var p := Run(events).published;
      && (Announces(p) <==> e.live && held.Some? && held.value.available == Yes && IsFresh(held.value, e.now))
      && (p == Some(Stale(e.drops)) <==> e.live && held.Some? && !IsFresh(held.value, e.now))
  {
    var n := |events| - 1;
    HeldStays(events[..n], i);
    assert events[..n][..i] == events[..i];
    assert events[n].Poll?;
    if Run(events[..n]).last.Some? {
      HeldHasSource(events[..n]);
    }
  }

  /** With resets, it stays or is dropped. */
  lemma {:induction false} HeldStaysOrGoes(events: seq<Event>, i: nat)
    requires i <= |events| && UnreadableFrom(events, i)
    ensures Run(events).last == Run(events[..i]).last || Run(events).last == None
  {
    if i < |events| {
      var n := |events| - 1;
      HeldStaysOrGoes(events[..n], i);
      assert events[..n][..i] == events[..i];
    } else {
      assert events[..i] == events;
    }
  }

  /** Why a poll that cannot read the file is silent. */
  lemma SilentPoll(events: seq<Event>)
    requires events != [] && events[|events| - 1].Poll? && (events[|events| - 1].live ==> events[|events| - 1].file.None?)
    ensures var e := events[|events| - 1]; var held := Run(events[..|events| - 1]).last;
      Announces(Run(events).published) <==>
        e.live && held.Some? && held.value.available == Yes && IsFresh(held.value, e.now)
  {
  }

  lemma SilentLater(events: seq<Event>, j: nat, k: nat)
    requires j < k < |events| && UnreadableFrom(events, j) && Clocked(events)
    requires events[j].Poll? && events[j].live && !AnnouncedAt(events, j) && events[k].Poll?
    ensures !AnnouncedAt(events, k)
  {
    var first, later := events[..j + 1], events[..k + 1];
    assert first[..j] == events[..j] && first[j] == events[j];
    assert later[..k] == events[..k] && later[k] == events[k];
    assert events[..k][..j] == events[..j];
    SilentPoll(first);
    SilentPoll(later);
    HeldStaysOrGoes(events[..k], j);
    assert events[j].now <= events[k].now;
  }

  /** Once expired, never available again: with the file unreadable and a clock that
      does not go back, a poll `j` that is receiving and announces nothing is followed
      by nothing that is announced, resets or not. */
  lemma {:induction false} ExpiredStaysExpired(events: seq<Event>, j: nat, k: nat)
    requires j <= k < |events| && UnreadableFrom(events, j) && Clocked(events)
    requires events[j].Poll? && events[j].live && !AnnouncedAt(events, j)
    ensures !AnnouncedAt(events, k)
  {
    if j < k {
      if events[k].Poll? {
        SilentLater(events, j, k);
      } else {
        ExpiredStaysExpired(events, j, k - 1);
        assert events[..k + 1][..k] == events[..k];
      }
    }
  }

  /** The held snapshot outlives a report of failure: after the file says that the
      monitor is gone, a poll that cannot read it announces the older snapshot. */
  lemma FailureThenUnreadable(good: Snap, failed: Snap, now: real)
    requires good.available == Yes && IsFresh(good, now) && failed.available == No
    ensures var events := [Poll(Some(good), true, 0, now), Poll(Some(failed), true, 0, now), Poll(None, true, 0, now)];
      && !Announces(Run(events[..2]).published) && Run(events).published == Some(Payload(good, 0))
  {
  }

  /** The part of `_write_status` that publishes the snapshot. */
  class SrtChild {
    var last: Option<Snap>
    var published: Option<Payload>

    method WriteStatus(file: Option<Snap>, live: bool, drops: nat, now: real)
      modifies this
      ensures Child(last, published) == Step(old(Child(last, published)), Poll(file, live, drops, now))
    {
      published := StatusPayload(file, live, drops, last, now);
      if published.Some? {
        match published.value
        case Payload(snap, _) =>
          if Truthy(snap.available) {
            last := Some(snap);
          }
        case Stale(_) =>
      }
    }

    method ResetEtr290()
      modifies this`last
      ensures Child(last, published) == Step(old(Child(last, published)), Reset)
    {
      last := None;
    }
  }
}
