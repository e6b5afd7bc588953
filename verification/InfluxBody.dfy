/** Rows with the meaning the monitor gives them, and whole write bodies. */
module InfluxBody {
  import opened Text
  import opened Common
  import opened Etr290
  import opened Influx
  import opened InfluxLine
  import CounterNames

  // -------------------------------------------------------------------- rows

  const EXACT := 0x20_0000_0000_0000

  /** Reading decimals: exact for integers, and for floats below two to the 53. */
  ghost predicate Exact(nums: Numbers) {
    && (forall n: nat :: n < EXACT ==> nums.toFloat(Decimal(n)) == Finite(n as real))
    && (forall n: nat :: nums.toInt(Decimal(n)) == Some(n))
  }

  /** A row as it is written. */
  datatype Written = Written(
    measurement: string,
    tags: seq<(string, string)>,
    slashes: bool,
    value: nat,
    suffix: bool,
    stamp: Option<string>)

  function Line(w: Written): string {
    RenderLine(RenderHead(w.measurement, w.tags, w.slashes), ValueField(Decimal(w.value), w.suffix), w.stamp)
  }

  predicate Sound(w: Written) {
    && MeasurementOk(w.measurement) && TagsOk(w.tags, w.slashes) && w.value < EXACT
    && (w.stamp.Some? ==> Trim(w.stamp.value) && IsStamp(w.stamp.value))
  }

  /** The row says `item`: in the stream's scope, a priority 1 or 2 counter, one of
      the two informational counters, or the bitrate. */
  predicate Says(w: Written, item: Item) {
    var tags := TagMap(w.tags);
    && InScope(tags)
    && match item
       case CounterRow(row) =>
         && w.measurement == "counter" && (row.severity == 1 || row.severity == 2) && row.value == w.value
         && SeverityText(tags) == Decimal(row.severity) && NameText(tags) == CounterNames.Text(row.name)
       case PacketCount(v) =>
         w.measurement == "counter" && SeverityText(tags) == Decimal(4) && NameText(tags) == "packet_count" && v == w.value
       case ErrorCount(v) =>
         w.measurement == "counter" && SeverityText(tags) == Decimal(4) && NameText(tags) == "error_count" && v == w.value
       case Bitrate(v) => w.measurement == "bitrate" && v == w.value
       case _ => false
  }

  lemma NamedCounter(n: Counter)
    ensures Named(CounterNames.Text(n)) == P12(n) && CounterNames.Text(n) != ""
  {
    CounterNames.NamesDiffer();
    CounterNames.Marked(n);
  }

  lemma NamedInfo()
    ensures Named("packet_count") == Packets && Named("error_count") == Errors
  {
    forall n ensures CounterNames.Text(n) != "packet_count" && CounterNames.Text(n) != "error_count" {
      CounterNames.Marked(n);
    }
  }

  lemma TruncateWhole(n: nat)
    ensures Truncate(n as real) == n
  {
  }

  lemma Interpreted(kind: Measurement, severity: nat, name: string, value: nat, nums: Numbers)
    requires Exact(nums) && value < EXACT && name != ""
    ensures Interpret(kind, true, Decimal(severity), name, Finite(value as real), nums) ==
      match kind
      case OtherLine => Skip
      case BitrateLine => Bitrate(value)
      case CounterLine => CounterItem(Named(name), severity, value as real)
  {
    TruncateWhole(value);
  }

  /** What is written is read: every row of the monitor comes back as itself. */
  lemma RowReadsBack(w: Written, item: Item, nums: Numbers)
    requires Exact(nums) && Sound(w) && Says(w, item)
    ensures ParseRow(Line(w), nums) == item
  {
    var tags := TagMap(w.tags);
    LineReadsBack(w.measurement, w.tags, w.slashes, Decimal(w.value), w.suffix, w.stamp, nums);
    SaysItem(w, item, nums);
  }

  lemma SaysItem(w: Written, item: Item, nums: Numbers)
    requires Exact(nums) && w.value < EXACT && Says(w, item)
    ensures InterpretTags(w.measurement, TagMap(w.tags), Finite(w.value as real), nums) == item
  {
    TruncateWhole(w.value);
    match item
    case CounterRow(row) =>
      NamedCounter(row.name);
      Interpreted(CounterLine, row.severity, CounterNames.Text(row.name), w.value, nums);
    case PacketCount(_) =>
      NamedInfo();
      Interpreted(CounterLine, 4, "packet_count", w.value, nums);
    case ErrorCount(_) =>
      NamedInfo();
      Interpreted(CounterLine, 4, "error_count", w.value, nums);
    case Bitrate(_) =>
  }

  // ------------------------------------------------------------------ bodies

  /** The outcome of a body: one row that raises loses them all. */
  datatype Body = Raised | Body(parsed: Parsed)

  const NOTHING := Parsed([], None, None, None)

  function Add(p: Parsed, item: Item): Parsed {
    match item
    case CounterRow(row) => p.(counters := p.counters + [row])
    case PacketCount(v) => p.(packets := Some(v))
    case ErrorCount(v) => p.(errors := Some(v))
    case Bitrate(v) => p.(bitrate := Some(v))
    case _ => p
  }

  function Collect(items: seq<Item>): Body {
    if items == [] then Body(NOTHING)
    else
      var before, last := Collect(items[..|items| - 1]), items[|items| - 1];
      if before.Raised? || last.Raises? then Raised else Body(Add(before.parsed, last))
  }

  function Map<T, U>(s: seq<T>, f: T -> U): seq<U> {
    seq(|s|, i requires 0 <= i < |s| => f(s[i]))
  }

  lemma MapConcat<T, U>(a: seq<T>, b: seq<T>, f: T -> U)
    ensures Map(a + b, f) == Map(a, f) + Map(b, f)
  {
  }

  function Reader(nums: Numbers): string -> Item {
    line => ParseRow(line, nums)
  }

  function Items(lines: seq<string>, nums: Numbers): seq<Item> {
    Map(lines, Reader(nums))
  }

  function ParseBody(text: string, nums: Numbers): Body {
    Collect(Items(SplitLines(text), nums))
  }

  lemma {:induction false} RaisedStays(items: seq<Item>, n: nat)
    requires n <= |items| && Collect(items[..n]).Raised?
    ensures Collect(items).Raised?
  {
    if n == |items| {
      assert items[..n] == items;
    } else {
      assert items[..|items| - 1][..n] == items[..n];
      RaisedStays(items[..|items| - 1], n);
    }
  }

  /** The line's item is the one the whole body has there. */
  method ParseAt(lines: seq<string>, i: nat, nums: Numbers, ghost items: seq<Item>) returns (item: Item)
    requires i < |lines| == |items| && items == Items(lines, nums)
    ensures item == items[i]
  {
    item := ParseInfluxLine(lines[i], nums);
  }

  lemma CollectStep(items: seq<Item>, i: nat)
    requires i < |items|
    ensures Collect(items[..i + 1]) ==
            if Collect(items[..i]).Raised? || items[i].Raises? then Raised
            else Body(Add(Collect(items[..i]).parsed, items[i]))
  {
    assert items[..i + 1][..i] == items[..i];
  }

  /** `parse_influx_body`. */
  method ParseInfluxBody(text: string, nums: Numbers) returns (body: Body)
    ensures body == ParseBody(text, nums)
  {
    var lines := SplitLines(text);
    ghost var items := Items(lines, nums);
    var parsed := NOTHING;
    for i := 0 to |lines|
      invariant Collect(items[..i]) == Body(parsed)
    {
      CollectStep(items, i);
      var item := ParseAt(lines, i, nums, items);
      if item.Raises? {
        RaisedStays(items, i + 1);
        return Raised;
      }
      parsed := AddItem(parsed, item);
    }
    assert items[..|lines|] == items;
    return Body(parsed);
  }

  method AddItem(p: Parsed, item: Item) returns (parsed: Parsed)
    ensures parsed == Add(p, item)
  {
    parsed := p;
    match item
    case CounterRow(row) => parsed := p.(counters := p.counters + [row]);
    case Bitrate(v) => parsed := p.(bitrate := Some(v));
    case PacketCount(v) => parsed := p.(packets := Some(v));
    case ErrorCount(v) => parsed := p.(errors := Some(v));
    case _ =>
  }

  /** Two bodies as one: the counters of both in order, of the informational fields
      the later. */
  function Merge(a: Body, b: Body): Body {
    if a.Raised? || b.Raised? then Raised
    else
      var p, q := a.parsed, b.parsed;
      Body(Parsed(p.counters + q.counters, q.bitrate.Or(p.bitrate), q.packets.Or(p.packets), q.errors.Or(p.errors)))
  }

  /** Reading a body is a homomorphism over its lines. */
  lemma BodyConcat(a: seq<string>, b: seq<string>, nums: Numbers)
    ensures Collect(Items(a + b, nums)) == Merge(Collect(Items(a, nums)), Collect(Items(b, nums)))
  {
    MapConcat(a, b, Reader(nums));
    CollectConcat(Items(a, nums), Items(b, nums));
  }

  lemma {:induction false} CollectConcat(a: seq<Item>, b: seq<Item>)
    ensures Collect(a + b) == Merge(Collect(a), Collect(b))
  {
    if b == [] {
      assert a + b == a;
    } else {
      var k := |b| - 1;
      assert (a + b)[..|a| + k] == a + b[..k] && (a + b)[|a| + k] == b[k];
      CollectConcat(a, b[..k]);
    }
  }

  function Lines(ws: seq<Written>): seq<string> {
    seq(|ws|, i requires 0 <= i < |ws| => Line(ws[i]))
  }

  lemma ReadAs(ws: seq<Written>, items: seq<Item>, nums: Numbers, i: nat)
    requires Exact(nums) && i < |ws| == |items| && Sound(ws[i]) && Says(ws[i], items[i])
    ensures Reader(nums)(Lines(ws)[i]) == items[i]
  {
    RowReadsBack(ws[i], items[i], nums);
    assert Lines(ws)[i] == Line(ws[i]);
  }

  lemma MapIs<T, U>(s: seq<T>, f: T -> U, out: seq<U>)
    requires |s| == |out| && forall i :: 0 <= i < |s| ==> f(s[i]) == out[i]
    ensures Map(s, f) == out
  {
  }

  lemma ItemsAre(ws: seq<Written>, items: seq<Item>, nums: Numbers)
    requires Exact(nums) && |ws| == |items|
    requires forall i :: 0 <= i < |ws| ==> Sound(ws[i]) && Says(ws[i], items[i])
    ensures Items(Lines(ws), nums) == items
  {
    var lines, read := Lines(ws), Reader(nums);
    forall i | 0 <= i < |lines| ensures read(lines[i]) == items[i] { ReadAs(ws, items, nums, i); }
    MapIs(lines, read, items);
  }

  lemma BodyOf(lines: seq<string>, items: seq<Item>, nums: Numbers)
    requires lines != [] && LinesOk(lines) && Items(lines, nums) == items
    ensures ParseBody(JoinLines(lines) + "\n", nums) == Collect(items)
  {
    SplitWritten(lines);
  }

  /** A whole body reads back, row by row. */
  lemma BodyReadsBack(ws: seq<Written>, items: seq<Item>, nums: Numbers)
    requires Exact(nums) && ws != [] && |ws| == |items|
    requires forall i :: 0 <= i < |ws| ==> Sound(ws[i]) && Says(ws[i], items[i])
    requires LinesOk(Lines(ws))
    ensures ParseBody(JoinLines(Lines(ws)) + "\n", nums) == Collect(items)
  {
    ItemsAre(ws, items, nums);
    BodyOf(Lines(ws), items, nums);
  }
}
