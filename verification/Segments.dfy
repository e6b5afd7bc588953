/** Recorded segments: the name order of `segment_%05d.ts` is the capture order up
    to 100000 files, and the master is the segments' bytes in that order. */
module Segments {
  import opened Common
  import opened Text

  type Bytes = seq<bv8>

  // ------------------------------------------------------------------ names

  /** `n` in exactly `w` decimal digits (its last `w`). */
  function Pad(n: nat, w: nat): (s: string)
    ensures |s| == w
  {
    if w == 0 then "" else Pad(n / 10, w - 1) + [Digit(n % 10)]
  }

  /** `%05d`. */
  function FiveDigits(n: nat): string {
    if n < 100000 then Pad(n, 5) else Decimal(n)
  }

  function Name(i: nat): string {
    "segment_" + FiveDigits(i) + ".ts"
  }

  /** String order: by code point, a proper prefix first. */
  predicate Less(a: string, b: string) {
    b != "" && (a == "" || a[0] < b[0] || (a[0] == b[0] && Less(a[1..], b[1..])))
  }

  lemma {:induction false} LessAppend(a: string, b: string, x: string, y: string)
    requires |a| == |b| && Less(a, b)
    ensures Less(a + x, b + y)
  {
    assert (a + x)[1..] == a[1..] + x && (b + y)[1..] == b[1..] + y;
    if a[0] == b[0] {
      LessAppend(a[1..], b[1..], x, y);
    }
  }

  lemma {:induction false} LessPrefix(p: string, x: string, y: string)
    ensures Less(p + x, p + y) == Less(x, y)
  {
    if p == "" {
      assert p + x == x && p + y == y;
    } else {
      assert (p + x)[1..] == p[1..] + x && (p + y)[1..] == p[1..] + y;
      LessPrefix(p[1..], x, y);
    }
  }

  lemma {:induction false} LessIrreflexive(a: string)
    ensures !Less(a, a)
  {
    if a != "" { LessIrreflexive(a[1..]); }
  }

  lemma {:induction false} LessTransitive(a: string, b: string, c: string)
    requires Less(a, b) && Less(b, c)
    ensures Less(a, c)
  {
    if a != "" && a[0] == b[0] == c[0] { LessTransitive(a[1..], b[1..], c[1..]); }
  }

  lemma {:induction false} LessTotal(a: string, b: string)
    ensures a == b || Less(a, b) || Less(b, a)
  {
    if a != "" && b != "" && a[0] == b[0] {
      LessTotal(a[1..], b[1..]);
      if a[1..] == b[1..] { assert a == [a[0]] + a[1..] && b == [b[0]] + b[1..]; }
    }
  }

  function Pow10(w: nat): nat {
    if w == 0 then 1 else 10 * Pow10(w - 1)
  }

  /** Fixed-width numbers sort as numbers. */
  lemma {:induction false} PadOrder(i: nat, j: nat, w: nat)
    requires i < j < Pow10(w)
    ensures Less(Pad(i, w), Pad(j, w))
  {
    if i / 10 < j / 10 {
      PadOrder(i / 10, j / 10, w - 1);
      LessAppend(Pad(i / 10, w - 1), Pad(j / 10, w - 1), [Digit(i % 10)], [Digit(j % 10)]);
    } else {
      assert i / 10 == j / 10 && i % 10 < j % 10;
      LessPrefix(Pad(i / 10, w - 1), [Digit(i % 10)], [Digit(j % 10)]);
    }
  }

  /** Below 100000, the name order is the capture order. */
  lemma NameOrder(i: nat, j: nat)
    requires i < j < 100000
    ensures Less(Name(i), Name(j))
  {
    assert Pow10(5) == 100000 by { assert Pow10(1) == 10 && Pow10(2) == 100 && Pow10(3) == 1000 && Pow10(4) == 10000; }
    PadOrder(i, j, 5);
    LessAppend(Pad(i, 5), Pad(j, 5), ".ts", ".ts");
    LessPrefix("segment_", Pad(i, 5) + ".ts", Pad(j, 5) + ".ts");
    assert Name(i) == "segment_" + (Pad(i, 5) + ".ts") && Name(j) == "segment_" + (Pad(j, 5) + ".ts");
  }

  lemma FirstDigits()
    ensures Decimal(100000)[0] == '1' && Pad(99999, 5)[0] == '9'
  {
    assert Decimal(100000)[0] == Decimal(10000)[0] == Decimal(1000)[0] == Decimal(100)[0] == Decimal(10)[0] == Decimal(1)[0];
    assert Pad(99999, 5)[0] == Pad(9999, 4)[0] == Pad(999, 3)[0] == Pad(99, 2)[0] == Pad(9, 1)[0];
  }

  lemma FirstDecides(a: string, b: string)
    requires a != "" && b != "" && a[0] < b[0]
    ensures Less(a, b) && !Less(b, a)
  {
  }

  lemma NameParts(i: nat)
    ensures Name(i) == "segment_" + (FiveDigits(i) + ".ts")
  {
  }

  /** The bound is sharp: the next file sorts before the last one. */
  lemma NameOrderEnds()
    ensures Less(Name(100000), Name(99999)) && !Less(Name(99999), Name(100000))
  {
    var big, last := FiveDigits(100000) + ".ts", FiveDigits(99999) + ".ts";
    FirstDigits();
    FirstDecides(big, last);
    LessPrefix("segment_", big, last);
    LessPrefix("segment_", last, big);
    NameParts(100000);
    NameParts(99999);
  }

  // ------------------------------------------------------------ the listing

  /** The glob `segment_*.ts`. */
  predicate Matches(name: string) {
    |name| >= 11 && StartsWith(name, "segment_") && name[|name| - 3..] == ".ts"
  }

  predicate Sorted(s: seq<string>) {
    forall i, j :: 0 <= i < j < |s| ==> Less(s[i], s[j])
  }

  function InsertSorted(name: string, s: seq<string>): seq<string> {
    if s == [] then [name]
    else if Less(name, s[0]) then [name] + s
    else [s[0]] + InsertSorted(name, s[1..])
  }

  /** `list_segments`: the regular files that match, sorted. */
  function ListSegments(files: seq<string>): seq<string> {
    if files == [] then []
    else
      var rest := ListSegments(files[1..]);
      if Matches(files[0]) then InsertSorted(files[0], rest) else rest
  }

  lemma {:induction false} InsertKeepsSorted(name: string, s: seq<string>)
    requires Sorted(s) && name !in s
    ensures Sorted(InsertSorted(name, s))
    ensures forall x :: x in InsertSorted(name, s) <==> x == name || x in s
  {
    if s != [] {
      LessTotal(name, s[0]);
      if Less(name, s[0]) {
        forall j | 0 <= j < |s| ensures Less(name, s[j]) {
          if j > 0 { LessTransitive(name, s[0], s[j]); }
        }
      } else {
        assert s[0] in s;
        InsertKeepsSorted(name, s[1..]);
        var r := InsertSorted(name, s[1..]);
        forall j | 0 <= j < |r| ensures Less(s[0], r[j]) {
          assert r[j] in r;
          if r[j] != name {
            var k :| 0 <= k < |s[1..]| && s[1..][k] == r[j];
            assert Less(s[0], s[k + 1]);
          }
        }
      }
    }
  }

  lemma {:induction false} ListSegmentsSound(files: seq<string>)
    requires Distinct(files)
    ensures Sorted(ListSegments(files))
    ensures forall x :: x in ListSegments(files) <==> x in files && Matches(x)
  {
    if files != [] {
      ListSegmentsSound(files[1..]);
      assert files == [files[0]] + files[1..];
      var rest := ListSegments(files[1..]);
      assert files[0] !in files[1..];
      if Matches(files[0]) { InsertKeepsSorted(files[0], rest); }
    }
  }

  lemma {:induction false} SortedUnique(a: seq<string>, b: seq<string>)
    requires Sorted(a) && Sorted(b) && forall x :: x in a <==> x in b
    ensures a == b
  {
    assert (a != [] ==> a[0] in a) && (b != [] ==> b[0] in b);
    if a != [] && b != [] {
      FirstIsLeast(a, b[0]);
      FirstIsLeast(b, a[0]);
      LessIrreflexive(a[0]);
      if Less(a[0], b[0]) && Less(b[0], a[0]) { LessTransitive(a[0], b[0], a[0]); }
      assert a[0] == b[0];
      TailMembers(a);
      TailMembers(b);
      SortedUnique(a[1..], b[1..]);
      assert a == [a[0]] + a[1..] && b == [b[0]] + b[1..];
    }
  }

  lemma FirstIsLeast(a: seq<string>, x: string)
    requires Sorted(a) && x in a
    ensures x == a[0] || Less(a[0], x)
  {
  }

  lemma TailMembers(a: seq<string>)
    requires Sorted(a) && a != []
    ensures forall x :: x in a[1..] <==> x in a && x != a[0]
  {
    LessIrreflexive(a[0]);
    assert a == [a[0]] + a[1..];
    assert a[0] !in a[1..];
  }

  /** The names of the first `n` segments, as captured. */
  function Captured(n: nat): (s: seq<string>)
    ensures |s| == n
  {
    seq(n, i requires 0 <= i < n => Name(i))
  }

  lemma CapturedSorted(n: nat)
    ensures Sorted(Captured(n)) <==> n <= 100000
  {
    var s := Captured(n);
    if n <= 100000 {
      forall i, j | 0 <= i < j < n ensures Less(s[i], s[j]) { NameOrder(i, j); }
    } else {
      NameOrderEnds();
      assert s[99999] == Name(99999) && s[100000] == Name(100000);
    }
  }

  /** Whatever else the directory holds and in whatever order it lists it, the
      segments come out in capture order exactly up to 100000 of them. */
  lemma ListedInCaptureOrder(files: seq<string>, n: nat)
    requires Distinct(files)
    requires forall x :: x in files && Matches(x) <==> x in Captured(n)
    ensures ListSegments(files) == Captured(n) <==> n <= 100000
  {
    ListSegmentsSound(files);
    CapturedSorted(n);
    if n <= 100000 { SortedUnique(ListSegments(files), Captured(n)); }
  }

  // -------------------------------------------------------------- the master

  type Disk = string -> Bytes

  function Flatten(names: seq<string>, disk: Disk): Bytes {
    if names == [] then [] else Flatten(names[..|names| - 1], disk) + disk(names[|names| - 1])
  }

  datatype Master = NoSegments | Existing(name: string) | Written(bytes: Bytes)

  const CHUNK := 1048576

  /** `fh.read(CHUNK)`: some bytes while any are left, at most a chunk. */
  method Read(content: Bytes, pos: nat) returns (chunk: Bytes)
    requires pos <= |content|
    ensures |chunk| <= CHUNK && pos + |chunk| <= |content|
    ensures chunk == content[pos..pos + |chunk|]
    ensures chunk == [] <==> pos == |content|
  {
    if pos == |content| {
      return [];
    }
    var n: nat :| 1 <= n <= CHUNK && pos + n <= |content|;
    chunk := content[pos..pos + n];
  }

  /** `concat_mpegts_segments`: one segment stands for itself, several are copied
      chunk by chunk. */
  method ConcatMpegtsSegments(segments: seq<string>, disk: Disk) returns (master: Master)
    ensures segments == [] ==> master == NoSegments
    ensures |segments| == 1 ==> master == Existing(segments[0])
    ensures |segments| > 1 ==> master == Written(Flatten(segments, disk))
  {
    if segments == [] {
      return NoSegments;
    }
    if |segments| == 1 {
      return Existing(segments[0]);
    }
    var out: Bytes := [];
    for i := 0 to |segments|
      invariant out == Flatten(segments[..i], disk)
    {
      var content := disk(segments[i]);
      ghost var before := out;
      var pos := 0;
      while true
        invariant pos <= |content| && out == before + content[..pos]
        decreases |content| - pos
      {
        var chunk := Read(content, pos);
        if chunk == [] {
          break;
        }
        assert content[..pos] + chunk == content[..pos + |chunk|];
        out := out + chunk;
        pos := pos + |chunk|;
      }
      assert content[..pos] == content;
      assert segments[..i + 1][..i] == segments[..i];
    }
    assert segments[..|segments|] == segments;
    master := Written(out);
  }

  function MasterBytes(m: Master, disk: Disk): Bytes {
    match m
    case NoSegments => []
    case Existing(name) => disk(name)
    case Written(bytes) => bytes
  }

  /** The captured bytes, segment after segment. */
  function Capture(n: nat, disk: Disk): Bytes {
    if n == 0 then [] else Capture(n - 1, disk) + disk(Name(n - 1))
  }

  lemma {:induction false} FlattenCaptured(n: nat, disk: Disk)
    ensures Flatten(Captured(n), disk) == Capture(n, disk)
  {
    if n > 0 {
      assert Captured(n)[..n - 1] == Captured(n - 1);
      FlattenCaptured(n - 1, disk);
    }
  }

  /** The bytes of the segments `k` to `n`, exclusive. */
  function Own(k: nat, n: nat, disk: Disk): Bytes
    requires k <= n
  {
    if k == n then [] else Own(k, n - 1, disk) + disk(Name(n - 1))
  }

  lemma Assoc(a: Bytes, b: Bytes, c: Bytes)
    ensures (a + b) + c == a + (b + c)
  {
  }

  lemma {:induction false} CaptureFrom(k: nat, n: nat, disk: Disk)
    requires k <= n
    ensures Capture(n, disk) == Capture(k, disk) + Own(k, n, disk)
  {
    if k < n {
      CaptureFrom(k, n - 1, disk);
      Assoc(Capture(k, disk), Own(k, n - 1, disk), disk(Name(n - 1)));
    } else {
      assert Capture(k, disk) + [] == Capture(k, disk);
    }
  }

  lemma MasterIsNotASegment()
    ensures !Matches("master.ts")
  {
  }

  /** The postprocess worker's master of a directory with the captured segments;
      also when run again beside the master of the first run.  All recordings of a
      session share its directory: where numbers go on from one to the next, the
      master built for the one that wrote the segments from `k` on is its own bytes
      exactly when nothing was captured before it. */
  method BuildMaster(files: seq<string>, n: nat, disk: Disk) returns (master: Master)
    requires Distinct(files) && n <= 100000
    requires forall x :: x in files && Matches(x) <==> x in Captured(n)
    ensures n == 0 <==> master.NoSegments?
    ensures MasterBytes(master, disk) == Capture(n, disk)
    ensures forall k | 0 <= k <= n :: MasterBytes(master, disk) == Own(k, n, disk) <==> Capture(k, disk) == []
  {
    var segments := ListSegments(files);
    ListedInCaptureOrder(files, n);
    FlattenCaptured(n, disk);
    if n == 1 { assert Capture(1, disk) == Capture(0, disk) + disk(Name(0)); }
    master := ConcatMpegtsSegments(segments, disk);
    forall k | 0 <= k <= n ensures Capture(n, disk) == Own(k, n, disk) <==> Capture(k, disk) == [] {
      CaptureFrom(k, n, disk);
    }
  }

  /** The written master does not show up in a later listing. */
  lemma {:induction false} RerunLists(files: seq<string>, k: nat)
    requires k <= |files|
    ensures ListSegments(files[..k] + ["master.ts"] + files[k..]) == ListSegments(files)
  {
    MasterIsNotASegment();
    var all := files[..k] + ["master.ts"] + files[k..];
    if k == 0 {
      assert all[0] == "master.ts" && all[1..] == files;
    } else {
      assert all[0] == files[0];
      assert all[1..] == files[1..][..k - 1] + ["master.ts"] + files[1..][k - 1..];
      RerunLists(files[1..], k - 1);
    }
  }
}
