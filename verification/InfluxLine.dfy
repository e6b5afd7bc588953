/** One line of the monitor's line protocol: reading it, writing it, and that a
    written row reads back. */
module InfluxLine {
  import opened Text
  import opened Common
  import opened Etr290
  import opened Influx
  import CounterNames

  /** Index of the last `c`, or the length. */
  function FindLast(s: string, c: char): (n: nat)
    ensures n <= |s| && (n < |s| ==> s[n] == c && forall i :: n < i < |s| ==> s[i] != c)
    ensures n == |s| <==> Without(s, c)
  {
    if s == "" then 0
    else if s[|s| - 1] == c then |s| - 1
    else
      var n := FindLast(s[..|s| - 1], c);
      assert forall i :: 0 <= i < |s| - 1 ==> s[i] == s[..|s| - 1][i];
      if n == |s| - 1 then |s| else n
  }

  function DropDashes(s: string): string {
    if s != "" && s[0] == '-' then DropDashes(s[1..]) else s
  }

  predicate IsStamp(s: string) { Digits(DropDashes(s)) }

  /** The fields of what follows the head: without its timestamp, if any. */
  function FieldsOf(rest: string): string {
    var m := FindLast(rest, ' ');
    if m < |rest| && IsStamp(rest[m + 1..]) then rest[..m] else rest
  }

  datatype Parts = NoParts | Parts(head: string, fields: string)

  /** `_split_measurement_and_fields`. */
  function SplitMeasurement(line: string): Parts {
    var n := Find(line, ' ');
    if n == |line| then NoParts
    else
      var rest := Strip(line[n + 1..]);
      if rest == "" then NoParts else Parts(line[..n], FieldsOf(rest))
  }

  function DropSuffix(raw: string): string {
    if raw != "" && raw[|raw| - 1] == 'i' then raw[..|raw| - 1] else raw
  }

  const VALUE := "value"

  predicate IsValue(field: string) {
    var n := Find(field, '=');
    n < |field| && field[..n] == VALUE
  }

  function NumberIn(field: string, nums: Numbers): Num
    requires IsValue(field)
  {
    nums.toFloat(DropSuffix(field[Find(field, '=') + 1..]))
  }

  /** The number of the first field called value. */
  function FieldValue(fields: seq<string>, nums: Numbers): Num {
    if fields == [] then NotNumeric
    else if IsValue(fields[0]) then NumberIn(fields[0], nums)
    else FieldValue(fields[1..], nums)
  }

  /** `_field_numeric`. */
  method FieldNumeric(fieldsPart: string, nums: Numbers) returns (out: Num)
    ensures out == FieldValue(Split(fieldsPart, ','), nums)
  {
    var fields := Split(fieldsPart, ',');
    for i := 0 to |fields|
      invariant FieldValue(fields, nums) == FieldValue(fields[i..], nums)
    {
      assert fields[i..][1..] == fields[i + 1..];
      if IsValue(fields[i]) {
        return NumberIn(fields[i], nums);
      }
    }
    return NotNumeric;
  }

  type Tags = map<string, string>

  function ReadTags(parts: seq<string>): Tags {
    if parts == [] then map[]
    else
      var before, last := ReadTags(parts[..|parts| - 1]), parts[|parts| - 1];
      var n := Find(last, '=');
      if n == |last| then before else before[last[..n] := Unescape(last[n + 1..])]
  }

  /** The tags after the measurement. */
  function TagParts(head: string): seq<string> {
    var n := Find(head, ',');
    if n + 1 >= |head| then [] else Split(head[n + 1..], ',')
  }

  /** The loop over the tags: the last one of a key wins. */
  method ParseTags(parts: seq<string>) returns (tags: Tags)
    ensures tags == ReadTags(parts)
  {
    tags := map[];
    for i := 0 to |parts|
      invariant tags == ReadTags(parts[..i])
    {
      assert parts[..i + 1][..i] == parts[..i];
      var n := Find(parts[i], '=');
      if n < |parts[i]| {
        var value := UnescapeInfluxTag(parts[i][n + 1..]);
        tags := tags[parts[i][..n] := value];
      }
    }
    assert parts[..|parts|] == parts;
  }

  /** What a line says; an infinite or undefined number where an integer is wanted
      raises. */
  datatype Item =
    | Skip
    | Raises
    | CounterRow(row: Row)
    | PacketCount(value: int)
    | ErrorCount(value: int)
    | Bitrate(value: int)

  datatype Measurement = CounterLine | BitrateLine | OtherLine

  function Kind(measurement: string): Measurement {
    if measurement == "bitrate" then BitrateLine
    else if measurement == "counter" then CounterLine
    else OtherLine
  }

  /** The name of a counter row. */
  datatype Name = P12(n: Counter) | Packets | Errors | Unknown

  function Named(name: string): Name {
    var n := CounterNames.NameOf(name);
    if n.Some? then P12(n.value)
    else if name == "packet_count" then Packets
    else if name == "error_count" then Errors
    else Unknown
  }

  function CounterItem(name: Name, severity: int, x: real): Item {
    if (severity == 1 || severity == 2) && name.P12? then CounterRow(Row(name.n, severity, Truncate(x)))
    else if severity == 4 && name.Packets? then PacketCount(Truncate(x))
    else if severity == 4 && name.Errors? then ErrorCount(Truncate(x))
    else Skip
  }

  predicate InScope(tags: Tags) { "scope" in tags && tags["scope"] == "ts" }

  function SeverityText(tags: Tags): string { if "severity" in tags then tags["severity"] else "0" }

  function NameText(tags: Tags): string { if "name" in tags then tags["name"] else "" }

  function Interpret(kind: Measurement, scoped: bool, severity: string, name: string, number: Num, nums: Numbers): Item {
    if !scoped || number.NotNumeric? || kind.OtherLine? then Skip
    else if kind.BitrateLine? then if number.Finite? then Bitrate(Truncate(number.x)) else Raises
    else
      var s := nums.toInt(severity);
      if s.None? || name == "" then Skip
      else
        var item := CounterItem(Named(name), s.value, if number.Finite? then number.x else 0.0);
        if number.NonFinite? && !item.Skip? then Raises else item
  }

  function InterpretTags(measurement: string, tags: Tags, number: Num, nums: Numbers): Item {
    Interpret(Kind(measurement), InScope(tags), SeverityText(tags), NameText(tags), number, nums)
  }

  function ParseParts(head: string, fields: string, nums: Numbers): Item {
    InterpretTags(head[..Find(head, ',')], ReadTags(TagParts(head)), FieldValue(Split(fields, ','), nums), nums)
  }

  function ParseRow(line: string, nums: Numbers): Item {
    var s := Strip(line);
    if s == "" || s[0] == '#' then Skip
    else
      match SplitMeasurement(s)
      case NoParts => Skip
      case Parts(head, fields) => ParseParts(head, fields, nums)
  }

  /** `parse_influx_line`. */
  method ParseInfluxLine(line: string, nums: Numbers) returns (item: Item)
    ensures item == ParseRow(line, nums)
  {
    var s := Strip(line);
    if s == "" || s[0] == '#' {
      return Skip;
    }
    match SplitMeasurement(s)
    case NoParts =>
      return Skip;
    case Parts(head, fields) =>
      var tags := ParseTags(TagParts(head));
      var number := FieldNumeric(fields, nums);
      return InterpretTags(head[..Find(head, ',')], tags, number, nums);
  }

  // ------------------------------------------------------------ writing a row

  function TagText(tag: (string, string), slashes: bool): string {
    tag.0 + ['='] + Escape(tag.1, slashes)
  }

  function TagTexts(tags: seq<(string, string)>, slashes: bool): seq<string> {
    seq(|tags|, i requires 0 <= i < |tags| => TagText(tags[i], slashes))
  }

  function RenderHead(measurement: string, tags: seq<(string, string)>, slashes: bool): string {
    if tags == [] then measurement else measurement + [','] + JoinWith(TagTexts(tags, slashes), ',')
  }

  /** Fields, and the timestamp if any. */
  function RenderRest(fields: string, stamp: Option<string>): string {
    if stamp.Some? then fields + [' '] + stamp.value else fields
  }

  function RenderLine(head: string, fields: string, stamp: Option<string>): string {
    head + [' '] + RenderRest(fields, stamp)
  }

  function TagMap(tags: seq<(string, string)>): Tags {
    if tags == [] then map[]
    else TagMap(tags[..|tags| - 1])[tags[|tags| - 1].0 := tags[|tags| - 1].1]
  }

  /** A tag that survives: no separator in the key, no comma or space in the value,
      and a value that the writer's escaping keeps. */
  predicate TagOk(tag: (string, string), slashes: bool) {
    && Without(tag.0, ',') && Without(tag.0, ' ') && Without(tag.0, '=')
    && Without(tag.1, ',') && Without(tag.1, ' ')
    && (slashes || SlashSafe(tag.1))
  }

  predicate TagsOk(tags: seq<(string, string)>, slashes: bool) {
    forall i :: 0 <= i < |tags| ==> TagOk(tags[i], slashes)
  }

  predicate MeasurementOk(m: string) {
    m != "" && Without(m, ',') && Without(m, ' ') && !IsSpace(m[0]) && m[0] != '#'
  }

  /** Some text without a space, no white space at its ends. */
  predicate Trim(s: string) {
    s != "" && Without(s, ' ') && !IsSpace(s[0]) && !IsSpace(s[|s| - 1])
  }

  lemma {:induction false} EscapeWithout(s: string, c: char, slashes: bool)
    requires Without(s, c) && c != '\\'
    ensures Without(Escape(s, slashes), c)
  {
    if s != "" {
      assert forall i :: 0 <= i < |s| - 1 ==> s[1..][i] == s[i + 1];
      EscapeWithout(s[1..], c, slashes);
    }
  }

  lemma EscapeBack(s: string, slashes: bool)
    requires slashes || SlashSafe(s)
    ensures Unescape(Escape(s, slashes)) == s
  {
    if slashes {
      EscapeRoundTrip(s);
    } else {
      PlainEscapeRoundTrip(s);
    }
  }

  lemma TagTextOk(tag: (string, string), slashes: bool)
    requires TagOk(tag, slashes)
    ensures var t := TagText(tag, slashes);
      && Without(t, ',') && Without(t, ' ')
      && Find(t, '=') == |tag.0| < |t| && t[..|tag.0|] == tag.0 && Unescape(t[|tag.0| + 1..]) == tag.1
  {
    var v := Escape(tag.1, slashes);
    EscapeWithout(tag.1, ',', slashes);
    EscapeWithout(tag.1, ' ', slashes);
    EscapeBack(tag.1, slashes);
    FindAt(tag.0, '=', v);
    assert (tag.0 + ['='] + v)[|tag.0| + 1..] == v;
  }

  lemma ReadTag(before: seq<string>, text: string, tag: (string, string))
    requires Find(text, '=') == |tag.0| < |text| && text[..|tag.0|] == tag.0 && Unescape(text[|tag.0| + 1..]) == tag.1
    ensures ReadTags(before + [text]) == ReadTags(before)[tag.0 := tag.1]
  {
    assert (before + [text])[..|before|] == before;
  }

  lemma {:induction false} TagsReadBack(tags: seq<(string, string)>, slashes: bool)
    requires TagsOk(tags, slashes)
    ensures ReadTags(TagTexts(tags, slashes)) == TagMap(tags)
  {
    if tags != [] {
      var k := |tags| - 1;
      TagsReadBack(tags[..k], slashes);
      assert TagTexts(tags, slashes) == TagTexts(tags[..k], slashes) + [TagText(tags[k], slashes)];
      TagTextOk(tags[k], slashes);
      ReadTag(TagTexts(tags[..k], slashes), TagText(tags[k], slashes), tags[k]);
    }
  }

  lemma {:induction false} JoinWithout(parts: seq<string>, c: char, d: char)
    requires |parts| >= 1 && c != d && forall i :: 0 <= i < |parts| ==> Without(parts[i], c)
    ensures Without(JoinWith(parts, d), c)
  {
    if |parts| > 1 {
      JoinWithout(parts[1..], c, d);
    }
  }

  lemma TextsOk(tags: seq<(string, string)>, slashes: bool)
    requires TagsOk(tags, slashes)
    ensures forall i :: 0 <= i < |tags| ==>
      var t := TagTexts(tags, slashes)[i]; t != "" && Without(t, ',') && Without(t, ' ')
  {
    forall i | 0 <= i < |tags|
      ensures var t := TagTexts(tags, slashes)[i]; t != "" && Without(t, ',') && Without(t, ' ')
    {
      TagTextOk(tags[i], slashes);
    }
  }

  /** The head falls apart into the measurement and the text of its tags. */
  lemma HeadSplits(m: string, texts: seq<string>)
    requires Without(m, ',') && |texts| >= 1 && texts[0] != "" && forall i :: 0 <= i < |texts| ==> Without(texts[i], ',')
    ensures var head := m + [','] + JoinWith(texts, ',');
      head[..Find(head, ',')] == m && TagParts(head) == texts
  {
    var blob := JoinWith(texts, ',');
    var head := m + [','] + blob;
    FindAt(m, ',', blob);
    assert head[..|m|] == m && head[|m| + 1..] == blob && blob != "";
    SplitJoin(texts, ',');
  }

  lemma BareHead(m: string)
    requires MeasurementOk(m)
    ensures m[..Find(m, ',')] == m && TagParts(m) == []
  {
  }

  lemma TaggedHead(m: string, tags: seq<(string, string)>, slashes: bool)
    requires MeasurementOk(m) && TagsOk(tags, slashes) && tags != []
    ensures var head := m + [','] + JoinWith(TagTexts(tags, slashes), ',');
      Without(head, ' ') && head[..Find(head, ',')] == m && TagParts(head) == TagTexts(tags, slashes)
  {
    var texts := TagTexts(tags, slashes);
    TextsOk(tags, slashes);
    JoinWithout(texts, ' ', ',');
    HeadSplits(m, texts);
  }

  lemma HeadReadBack(m: string, tags: seq<(string, string)>, slashes: bool)
    requires MeasurementOk(m) && TagsOk(tags, slashes)
    ensures var head := RenderHead(m, tags, slashes);
      && Without(head, ' ') && head[..Find(head, ',')] == m && ReadTags(TagParts(head)) == TagMap(tags)
      && head != "" && head[0] == m[0]
  {
    TagsReadBack(tags, slashes);
    if tags == [] {
      BareHead(m);
      assert TagTexts(tags, slashes) == [];
    } else {
      TaggedHead(m, tags, slashes);
    }
  }

  lemma {:induction false} FindLastAt(a: string, c: char, rest: string)
    requires Without(rest, c)
    ensures FindLast(a + [c] + rest, c) == |a|
  {
    var s := a + [c] + rest;
    if rest != "" {
      assert s[|s| - 1] == rest[|rest| - 1];
      assert s[..|s| - 1] == a + [c] + rest[..|rest| - 1];
      FindLastAt(a, c, rest[..|rest| - 1]);
    }
  }

  lemma RestSplits(fields: string, stamp: Option<string>)
    requires Trim(fields) && (stamp.Some? ==> Trim(stamp.value) && IsStamp(stamp.value))
    ensures var rest := RenderRest(fields, stamp);
      rest != "" && !IsSpace(rest[|rest| - 1]) && Strip(rest) == rest && FieldsOf(rest) == fields
  {
    var rest := RenderRest(fields, stamp);
    assert rest[0] == fields[0];
    StripKeeps(rest);
    if stamp.Some? {
      FindLastAt(fields, ' ', stamp.value);
      assert rest[..|fields|] == fields && rest[|fields| + 1..] == stamp.value;
    }
  }

  lemma LineSplitsAt(head: string, rest: string)
    requires Without(head, ' ') && head != "" && !IsSpace(head[0])
    requires rest != "" && !IsSpace(rest[|rest| - 1])
    ensures var line := head + [' '] + rest;
      && Strip(line) == line && line[0] == head[0]
      && Find(line, ' ') == |head| < |line| && line[..|head|] == head && line[|head| + 1..] == rest
  {
    var line := head + [' '] + rest;
    assert line[|line| - 1] == rest[|rest| - 1];
    StripKeeps(line);
    FindAt(head, ' ', rest);
  }

  lemma CutLine(head: string, rest: string)
    requires Without(head, ' ') && head != "" && !IsSpace(head[0])
    requires rest != "" && !IsSpace(rest[|rest| - 1]) && Strip(rest) == rest
    ensures var line := head + [' '] + rest;
      Strip(line) == line && line[0] == head[0] && SplitMeasurement(line) == Parts(head, FieldsOf(rest))
  {
    LineSplitsAt(head, rest);
  }

  /** A written line splits into its head and its fields. */
  lemma LineSplits(head: string, fields: string, stamp: Option<string>)
    requires Without(head, ' ') && head != "" && !IsSpace(head[0]) && Trim(fields)
    requires stamp.Some? ==> Trim(stamp.value) && IsStamp(stamp.value)
    ensures var line := RenderLine(head, fields, stamp);
      && line != "" && Strip(line) == line && line[0] == head[0] && SplitMeasurement(line) == Parts(head, fields)
  {
    RestSplits(fields, stamp);
    CutLine(head, RenderRest(fields, stamp));
  }

  lemma RowOf(line: string, head: string, fields: string, nums: Numbers)
    requires line != "" && Strip(line) == line && SplitMeasurement(line) == Parts(head, fields)
    ensures ParseRow(line, nums) == if line[0] == '#' then Skip else ParseParts(head, fields, nums)
  {
  }

  /** A number as a field writes it, with or without the integer suffix. */
  function ValueField(number: string, suffix: bool): string {
    VALUE + ['='] + (if suffix then number + ['i'] else number)
  }

  lemma SuffixDropped(number: string, suffix: bool)
    requires Digits(number)
    ensures DropSuffix(if suffix then number + ['i'] else number) == number
  {
    if suffix {
      assert (number + ['i'])[..|number|] == number;
    }
  }

  lemma FieldSplits(key: string, raw: string)
    requires Without(key, '=')
    ensures var f := key + ['='] + raw;
      Find(f, '=') == |key| < |f| && f[..|key|] == key && f[|key| + 1..] == raw
  {
    FindAt(key, '=', raw);
  }

  lemma ValueKey()
    ensures Without(VALUE, '=') && Without(VALUE, ',') && Without(VALUE, ' ') && VALUE != "" && !IsSpace(VALUE[0])
  {
  }

  lemma ValueReadBack(number: string, suffix: bool, nums: Numbers)
    requires Digits(number)
    ensures var f := ValueField(number, suffix);
      && Trim(f) && Without(f, ',') && IsValue(f) && NumberIn(f, nums) == nums.toFloat(number)
  {
    var raw := if suffix then number + ['i'] else number;
    ValueKey();
    FieldSplits(VALUE, raw);
    SuffixDropped(number, suffix);
    TrimField(VALUE, raw);
  }

  lemma TrimField(key: string, raw: string)
    requires key != "" && raw != "" && Without(key, ',') && Without(key, ' ') && Without(raw, ',') && Without(raw, ' ')
    requires !IsSpace(key[0]) && !IsSpace(raw[|raw| - 1])
    ensures Trim(key + ['='] + raw) && Without(key + ['='] + raw, ',')
  {
    var f := key + ['='] + raw;
    assert f[0] == key[0] && f[|f| - 1] == raw[|raw| - 1];
  }

  lemma OneField(field: string, nums: Numbers)
    requires Without(field, ',')
    ensures FieldValue(Split(field, ','), nums) == if IsValue(field) then NumberIn(field, nums) else NotNumeric
  {
    assert Split(field, ',') == [field];
  }

  /** Any row written with sound tags reads back as its meaning: the timestamp, the
      integer suffix and the order of the tags do not matter. */
  lemma LineReadsBack(m: string, tags: seq<(string, string)>, slashes: bool, number: string, suffix: bool,
                      stamp: Option<string>, nums: Numbers)
    requires MeasurementOk(m) && TagsOk(tags, slashes) && Digits(number)
    requires stamp.Some? ==> Trim(stamp.value) && IsStamp(stamp.value)
    ensures ParseRow(RenderLine(RenderHead(m, tags, slashes), ValueField(number, suffix), stamp), nums) ==
            InterpretTags(m, TagMap(tags), nums.toFloat(number), nums)
  {
    var head, field := RenderHead(m, tags, slashes), ValueField(number, suffix);
    HeadReadBack(m, tags, slashes);
    ValueReadBack(number, suffix, nums);
    LineSplits(head, field, stamp);
    RowOf(RenderLine(head, field, stamp), head, field, nums);
    OneField(field, nums);
  }
}
