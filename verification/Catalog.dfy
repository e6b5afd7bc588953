/** Cataloguing completed recordings: fire-and-forget jobs that may repeat, a
    bounded pass at every start, and several workers between their first look at a
    recording and their insert. */
module Catalog {

  type RecordingId = nat
  type AssetId = nat

  datatype Recording = Recording(completed: bool, startedAt: int)

  /** The two tables.  `nextAsset` stands for the fresh uuids. */
  datatype Store = Store(recordings: map<RecordingId, Recording>, assets: map<AssetId, RecordingId>, nextAsset: AssetId)

  predicate Cataloged(s: Store, r: RecordingId) {
    exists a :: a in s.assets && s.assets[a] == r
  }

  /** At most one asset per recording, none for a recording that is gone. */
  ghost predicate Consistent(s: Store) {
    && (forall a, b :: a in s.assets && b in s.assets && s.assets[a] == s.assets[b] ==> a == b)
    && (forall a :: a in s.assets ==> a < s.nextAsset && s.assets[a] in s.recordings)
  }

  /** The startup query: completed, and without an asset. */
  function Uncataloged(s: Store): set<RecordingId> {
    set r | r in s.recordings && s.recordings[r].completed && !Cataloged(s, r)
  }

  /** `_create_asset`: looks again, then inserts; a recording deleted meanwhile
      cannot be referred to, and the insert fails. */
  function Create(s: Store, r: RecordingId): Store {
    if Cataloged(s, r) || r !in s.recordings then s
    else s.(assets := s.assets[s.nextAsset := r], nextAsset := s.nextAsset + 1)
  }

  lemma CreateOnce(s: Store, r: RecordingId)
    requires Consistent(s)
    ensures var s' := Create(s, r);
      && Consistent(s') && s'.recordings == s.recordings
      && (forall q :: q in s.recordings ==> (Cataloged(s', q) <==> Cataloged(s, q) || q == r))
      && (forall a :: a in s.assets ==> a in s'.assets && s'.assets[a] == s.assets[a])
  {
    var s' := Create(s, r);
    if s' != s {
      assert s'.assets[s.nextAsset] == r;
      forall q | q in s.recordings ensures Cataloged(s', q) <==> Cataloged(s, q) || q == r {
        if Cataloged(s, q) {
          var a :| a in s.assets && s.assets[a] == q;
          assert a in s'.assets && s'.assets[a] == q;
        }
      }
    }
  }

  // ------------------------------------------------------- the sequential worker

  class PostProcessWorker {
    var store: Store

    constructor (store: Store)
      ensures this.store == store
    {
      this.store := store;
    }

    /** `_load_recording`: nothing to do for a missing or catalogued recording. */
    method LoadRecording(r: RecordingId) returns (found: bool)
      ensures found <==> r in store.recordings && !Cataloged(store, r)
    {
      if r !in store.recordings {
        return false;
      }
      if exists a :: a in store.assets && store.assets[a] == r {
        return false;
      }
      return true;
    }

    method CreateAsset(r: RecordingId)
      modifies this
      ensures store == Create(old(store), r)
    {
      if exists a :: a in store.assets && store.assets[a] == r {
        return;
      }
      if r in store.recordings {
        store := store.(assets := store.assets[store.nextAsset := r], nextAsset := store.nextAsset + 1);
      }
    }

    /** `_process`; `works`: concatenation, discovery and transcoding return. */
    method Process(r: RecordingId, works: bool)
      modifies this
      ensures store == if works then Create(old(store), r) else old(store)
    {
      var found := LoadRecording(r);
      if !found {
        return;
      }
      if !works {
        return;
      }
      CreateAsset(r);
    }

    /** The pass's query: the `limit` latest of what is left to catalogue. */
    method Pick(limit: nat) returns (ids: seq<RecordingId>)
      ensures |ids| == if |Uncataloged(store)| <= limit then |Uncataloged(store)| else limit
      ensures forall i, j :: 0 <= i < j < |ids| ==> ids[i] != ids[j]
      ensures forall r :: r in ids ==> r in Uncataloged(store)
      ensures forall r, q :: r in ids && q in Uncataloged(store) && q !in ids ==>
                store.recordings[q].startedAt <= store.recordings[r].startedAt
    {
      var left := Uncataloged(store);
      ids := [];
      while |ids| < limit && left != {}
        invariant |ids| <= limit && |ids| + |left| == |Uncataloged(store)| && left <= Uncataloged(store)
        invariant forall r :: r in Uncataloged(store) <==> r in left || r in ids
        invariant forall r :: r in ids ==> r !in left
        invariant forall i, j :: 0 <= i < j < |ids| ==> ids[i] != ids[j]
        invariant forall r, q :: r in ids && q in left ==> store.recordings[q].startedAt <= store.recordings[r].startedAt
        decreases left
      {
        var r := Latest(left);
        assert r !in ids;
        ids := ids + [r];
        left := left - {r};
      }
    }

    method Latest(rs: set<RecordingId>) returns (r: RecordingId)
      requires rs != {} && rs <= store.recordings.Keys
      ensures r in rs && forall q :: q in rs ==> store.recordings[q].startedAt <= store.recordings[r].startedAt
    {
      r :| r in rs;
      var todo := rs - {r};
      while todo != {}
        invariant r in rs && todo <= rs
        invariant forall q :: q in rs && q !in todo ==> store.recordings[q].startedAt <= store.recordings[r].startedAt
        decreases todo
      {
        var q :| q in todo;
        todo := todo - {q};
        if store.recordings[q].startedAt > store.recordings[r].startedAt {
          r := q;
        }
      }
    }

    /** `_catalog_uncataloged_recordings`: where processing works, the count of
        uncatalogued recordings drops by the limit, or to nothing. */
    method CatalogPass(limit: nat, works: RecordingId -> bool) returns (ghost ids: seq<RecordingId>)
      requires Consistent(store)
      modifies this
      ensures Consistent(store) && store.recordings == old(store).recordings
      ensures |ids| == if |Uncataloged(old(store))| <= limit then |Uncataloged(old(store))| else limit
      ensures forall r :: r in ids ==> r in Uncataloged(old(store))
      ensures forall r, q :: r in ids && q in Uncataloged(old(store)) && q !in ids ==>
                store.recordings[q].startedAt <= store.recordings[r].startedAt
      ensures Uncataloged(store) == set r | r in Uncataloged(old(store)) && !(r in ids && works(r))
      ensures (forall r :: r in Uncataloged(old(store)) ==> works(r)) ==>
                |Uncataloged(store)| == if |Uncataloged(old(store))| <= limit then 0 else |Uncataloged(old(store))| - limit
    {
      ghost var start := store;
      var picked := Pick(limit);
      ids := picked;
      for i := 0 to |picked|
        invariant Consistent(store) && store.recordings == start.recordings
        invariant Uncataloged(store) == set r | r in Uncataloged(start) && !(r in picked[..i] && works(r))
      {
        var r := picked[i];
        CreateOnce(store, r);
        ghost var before := store;
        Process(r, works(r));
        assert picked[..i + 1] == picked[..i] + [r];
        forall q | q in start.recordings
          ensures q in Uncataloged(store) <==> q in Uncataloged(before) && !(q == r && works(r))
        {
        }
      }
      assert picked[..|picked|] == picked;
      if forall r :: r in Uncataloged(start) ==> works(r) {
        PassCount(Uncataloged(start), picked, Uncataloged(store));
      }
    }

    static function Elements(s: seq<RecordingId>): set<RecordingId> {
      set r | r in s
    }

    static lemma PassCount(all: set<RecordingId>, picked: seq<RecordingId>, left: set<RecordingId>)
      requires forall i, j :: 0 <= i < j < |picked| ==> picked[i] != picked[j]
      requires forall r :: r in picked ==> r in all
      requires left == set r | r in all && r !in picked
      ensures |left| == |all| - |picked|
    {
      var gone := Elements(picked);
      ElementsCount(picked);
      assert left == all - gone && gone <= all;
      assert all == left + gone && left !! gone;
    }

    static lemma {:induction false} ElementsCount(s: seq<RecordingId>)
      requires forall i, j :: 0 <= i < j < |s| ==> s[i] != s[j]
      ensures |Elements(s)| == |s|
    {
      if s != [] {
        var n := |s| - 1;
        ElementsCount(s[..n]);
        assert s == s[..n] + [s[n]] && s[n] !in s[..n];
        assert Elements(s) == Elements(s[..n]) + {s[n]};
      }
    }
  }

  // ------------------------------------------------- several workers, any order

  /** `Look` and `Insert` are one worker's two transactions; another worker may run
      in between. */
  datatype Step =
    | Look(recording: RecordingId)
    | Insert(recording: RecordingId)
    | GiveUp(recording: RecordingId)
    | Finish(recording: RecordingId, row: Recording)
    | Delete(recording: RecordingId)

  /** `busy` counts the workers between the two transactions. */
  datatype Shop = Shop(store: Store, busy: multiset<RecordingId>, served: set<RecordingId>)

  ghost predicate Possible(s: Shop, step: Step) {
    match step
    case Look(_) => true
    case Insert(r) => r in s.busy
    case GiveUp(r) => r in s.busy
    case Finish(r, _) => r !in s.store.recordings && r !in s.served && r !in s.busy
    case Delete(r) => r in s.store.recordings
  }

  /** `served`: recordings for which some worker completed its processing. */
  ghost function Advance(s: Shop, step: Step): Shop {
    match step
    case Look(r) =>
      if r in s.store.recordings && !Cataloged(s.store, r) then s.(busy := s.busy + multiset{r}) else s
    case Insert(r) =>
      s.(store := Create(s.store, r), busy := s.busy - multiset{r}, served := s.served + {r})
    case GiveUp(r) => s.(busy := s.busy - multiset{r})
    case Finish(r, row) => s.(store := s.store.(recordings := s.store.recordings[r := row]))
    case Delete(r) =>
      s.(store := s.store.(recordings := s.store.recordings - {r},
                           assets := map a | a in s.store.assets && s.store.assets[a] != r :: s.store.assets[a]))
  }

  ghost predicate Steps(s: Shop, steps: seq<Step>)
    decreases |steps|
  {
    steps == [] || (Possible(s, steps[0]) && Steps(Advance(s, steps[0]), steps[1..]))
  }

  ghost function After(s: Shop, steps: seq<Step>): Shop
    decreases |steps|
  {
    if steps == [] then s else After(Advance(s, steps[0]), steps[1..])
  }

  /** `_process` of one worker, undisturbed, is a look and, if it finds work, an
      insert or, if the work fails, nothing. */
  lemma ProcessIsSteps(s: Shop, r: RecordingId, works: bool)
    ensures var found := r in s.store.recordings && !Cataloged(s.store, r);
            var steps := if !found then [Look(r)] else [Look(r), if works then Insert(r) else GiveUp(r)];
      Steps(s, steps) && After(s, steps).busy == s.busy
      && After(s, steps).store == if found && works then Create(s.store, r) else s.store
  {
    var found := r in s.store.recordings && !Cataloged(s.store, r);
    var second := if works then Insert(r) else GiveUp(r);
    assert [Look(r)][1..] == [] && [Look(r), second][1..] == [second] && [second][1..] == [];
    if found {
      var looked := Advance(s, Look(r));
      assert (s.busy + multiset{r}) - multiset{r} == s.busy;
      assert After(s, [Look(r), second]) == After(looked, [second]) && After(looked, [second]) == Advance(looked, second);
      assert Steps(looked, [second]);
    }
  }

  ghost predicate ShopOk(s: Shop) {
    && Consistent(s.store)
    && (forall r :: r in s.served && r in s.store.recordings ==> Cataloged(s.store, r))
    && (forall r :: r in s.store.recordings && Cataloged(s.store, r) ==> r in s.served)
  }

  lemma AdvanceOk(s: Shop, step: Step)
    requires ShopOk(s) && Possible(s, step)
    ensures ShopOk(Advance(s, step))
  {
    var s' := Advance(s, step);
    match step
    case Insert(r) => CreateOnce(s.store, r);
    case Delete(r) =>
      forall q | q in s'.store.recordings ensures Cataloged(s'.store, q) <==> Cataloged(s.store, q) {
        if Cataloged(s.store, q) {
          var a :| a in s.store.assets && s.store.assets[a] == q;
          assert a in s'.store.assets && s'.store.assets[a] == q;
        }
      }
    case Finish(r, row) =>
      forall q ensures Cataloged(s'.store, q) <==> Cataloged(s.store, q) {}
    case _ =>
  }

  /** Over any run of jobs, repeated or concurrent, passes, failures and deletions:
      a recording still there has exactly one asset if some worker finished
      processing it, and none otherwise. */
  lemma {:induction false} CatalogedExactlyOnce(s: Shop, steps: seq<Step>, r: RecordingId)
    requires ShopOk(s) && Steps(s, steps)
    ensures var end := After(s, steps);
      && ShopOk(end)
      && (r in end.store.recordings ==>
            |set a | a in end.store.assets && end.store.assets[a] == r| == if r in end.served then 1 else 0)
    decreases |steps|
  {
    if steps == [] {
      OneAsset(s.store, r);
    } else {
      AdvanceOk(s, steps[0]);
      CatalogedExactlyOnce(Advance(s, steps[0]), steps[1..], r);
    }
  }

  lemma OneAsset(s: Store, r: RecordingId)
    requires Consistent(s)
    ensures |set a | a in s.assets && s.assets[a] == r| == if Cataloged(s, r) then 1 else 0
  {
    var mine := set a | a in s.assets && s.assets[a] == r;
    if Cataloged(s, r) {
      var a :| a in s.assets && s.assets[a] == r;
      assert mine == {a};
    } else {
      assert mine == {};
    }
  }
}
