/** Recordings over a worker's whole life: runs of the protocol with crashes and
    startups anywhere in between. */
module Lifecycle {
  import opened ControlPlane
  import opened Protocol
  import opened Books
  import opened Runs
  import opened Recovery

  datatype Turn = Act(action: Action) | Crashes | StartsUp

  /** A startup is the first thing a worker does: it remembers nothing yet. */
  ghost predicate Possible(w: World, turn: Turn) {
    match turn
    case Act(a) => Enabled(w, a)
    case Crashes => true
    case StartsUp => w.core.sessions == map[] && w.core.recordingIds == map[]
  }

  ghost function Take(capacity: nat, w: World, turn: Turn): World {
    match turn
    case Act(a) => Next(capacity, w, a)
    case Crashes => Crash(w)
    case StartsUp => w.(core := Startup(w.core))
  }

  ghost predicate Life(capacity: nat, w: World, turns: seq<Turn>) {
    turns == [] ||
    (Life(capacity, w, turns[..|turns| - 1]) && Possible(After(capacity, w, turns[..|turns| - 1]), turns[|turns| - 1]))
  }

  ghost function After(capacity: nat, w: World, turns: seq<Turn>): World {
    if turns == [] then w else Take(capacity, After(capacity, w, turns[..|turns| - 1]), turns[|turns| - 1])
  }

  lemma InitialBooks(capacity: nat, w: World)
    requires Initial(w)
    ensures InBooks(capacity, w)
  {
    InitialHolds(capacity, w);
  }

  lemma TurnBooks(capacity: nat, w: World, turn: Turn)
    requires InBooks(capacity, w) && Possible(w, turn)
    ensures var w' := Take(capacity, w, turn);
      InBooks(capacity, w') && Lasts(w.core.recordings, w.issued, w'.core.recordings) && w.issued <= w'.issued
  {
    match turn
    case Act(a) => StepBooks(capacity, w, a);
    case Crashes => CrashBooks(capacity, w);
    case StartsUp => StartupBooks(w.core, w.issued);
  }

  lemma {:induction false} LifeBooks(capacity: nat, w: World, turns: seq<Turn>)
    requires InBooks(capacity, w) && Life(capacity, w, turns)
    ensures InBooks(capacity, After(capacity, w, turns))
  {
    if turns != [] {
      LifeBooks(capacity, w, turns[..|turns| - 1]);
      TurnBooks(capacity, After(capacity, w, turns[..|turns| - 1]), turns[|turns| - 1]);
    }
  }

  /** The worker never holds more sessions than its capacity. */
  lemma WithinCapacity(capacity: nat, w0: World, turns: seq<Turn>)
    requires Initial(w0) && Life(capacity, w0, turns)
    ensures |After(capacity, w0, turns).core.sessions| <= capacity
  {
    InitialBooks(capacity, w0);
    LifeBooks(capacity, w0, turns);
  }

  /** A completed recording has been published exactly once, a failed or unfinished
      one never, and nothing is ever published twice. */
  lemma PublishedOnce(capacity: nat, w0: World, turns: seq<Turn>, r: RecordingId)
    requires Initial(w0) && Life(capacity, w0, turns)
    ensures var k := After(capacity, w0, turns).core;
      && Count(k.events, r) <= 1
      && (r in k.recordings ==> (Count(k.events, r) == 1 <==> k.recordings[r].status == Completed))
  {
    InitialBooks(capacity, w0);
    LifeBooks(capacity, w0, turns);
  }

  /** The row, while it is there, has this status; its identifier is spent. */
  ghost predicate Final(w: World, r: RecordingId, st: RecordingStatus) {
    r in w.issued && (r in w.core.recordings ==> w.core.recordings[r].status == st)
  }

  /** Completed and failed are absorbing: a row that reached one after `i` turns
      keeps it until the API deletes it, and is never created again. */
  lemma {:induction false} TerminalAbsorbing(capacity: nat, w0: World, turns: seq<Turn>, i: nat, r: RecordingId)
    requires Initial(w0) && Life(capacity, w0, turns) && i <= |turns|
    requires var k := After(capacity, w0, turns[..i]).core;
             r in k.recordings && k.recordings[r].status != InProgress
    ensures Final(After(capacity, w0, turns), r, After(capacity, w0, turns[..i]).core.recordings[r].status)
  {
    var st := After(capacity, w0, turns[..i]).core.recordings[r].status;
    InitialBooks(capacity, w0);
    if i == |turns| {
      assert turns[..i] == turns;
      LifeBooks(capacity, w0, turns);
    } else {
      var init := turns[..|turns| - 1];
      assert init[..i] == turns[..i];
      TerminalAbsorbing(capacity, w0, init, i, r);
      LifeBooks(capacity, w0, init);
      TurnBooks(capacity, After(capacity, w0, init), turns[|turns| - 1]);
    }
  }
}
