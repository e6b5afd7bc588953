/** Tag values with separators: the reader cuts a line at spaces and commas before
    it looks for escapes.  Exactly when a written row reads back, and exactly when
    it is lost. */
module Separators {
  import opened Common
  import opened Text
  import opened Influx
  import opened InfluxLine

  // ------------------------------------------------------------ what is written

  predicate KeyOk(key: string) {
    Without(key, ',') && Without(key, ' ') && Without(key, '=') && key != VALUE
  }

  /** Any values, under distinct keys that no field could be taken for. */
  predicate KeysOk(tags: seq<(string, string)>) {
    && (forall i :: 0 <= i < |tags| ==> KeyOk(tags[i].0))
    && (forall i, j :: 0 <= i < j < |tags| ==> tags[i].0 != tags[j].0)
  }

  /** The tags, each after its comma. */
  function Later(tags: seq<(string, string)>, slashes: bool): string {
    if tags == [] then "" else [','] + TagText(tags[0], slashes) + Later(tags[1..], slashes)
  }

  lemma {:induction false} JoinIsLater(tags: seq<(string, string)>, slashes: bool)
    requires tags != []
    ensures [','] + JoinWith(TagTexts(tags, slashes), ',') == Later(tags, slashes)
  {
    var texts := TagTexts(tags, slashes);
    if |tags| == 1 {
      assert Later(tags[1..], slashes) == "";
    } else {
      JoinIsLater(tags[1..], slashes);
      assert texts[1..] == TagTexts(tags[1..], slashes);
      assert [','] + (texts[0] + [','] + JoinWith(texts[1..], ',')) == [','] + texts[0] + ([','] + JoinWith(texts[1..], ','));
    }
  }

  lemma HeadIsLater(m: string, tags: seq<(string, string)>, slashes: bool)
    ensures RenderHead(m, tags, slashes) == m + Later(tags, slashes)
  {
    if tags != [] {
      JoinIsLater(tags, slashes);
      assert m + [','] + JoinWith(TagTexts(tags, slashes), ',') == m + ([','] + JoinWith(TagTexts(tags, slashes), ','));
    }
  }

  // ---------------------------------------------------------- the first space

  predicate NoSpaces(tags: seq<(string, string)>) {
    forall i :: 0 <= i < |tags| ==> Without(tags[i].1, ' ')
  }

  lemma {:induction false} EscapeSplits(a: string, c: char, b: string, slashes: bool)
    ensures Escape(a + [c] + b, slashes) == Escape(a, slashes) + (if Special(c) || (slashes && c == '\\') then ['\\', c] else [c]) + Escape(b, slashes)
  {
    var s := a + [c] + b;
    if a == "" {
      assert s[1..] == b;
    } else {
      assert s[1..] == a[1..] + [c] + b;
      EscapeSplits(a[1..], c, b, slashes);
    }
  }

  /** What is written before and after the first space of a value. */
  function BeforeSpace(tags: seq<(string, string)>, slashes: bool): string {
    if tags == [] then ""
    else
      var v := tags[0].1;
      var p := Find(v, ' ');
      if p < |v| then [','] + TagText((tags[0].0, v[..p]), slashes) + ['\\']
      else [','] + TagText(tags[0], slashes) + BeforeSpace(tags[1..], slashes)
  }

  function AfterSpace(tags: seq<(string, string)>, slashes: bool): string {
    if tags == [] then ""
    else
      var v := tags[0].1;
      var p := Find(v, ' ');
      if p < |v| then Escape(v[p + 1..], slashes) + Later(tags[1..], slashes)
      else AfterSpace(tags[1..], slashes)
  }

  lemma TagWithout(tag: (string, string), slashes: bool)
    requires Without(tag.0, ' ') && Without(tag.1, ' ')
    ensures Without(TagText(tag, slashes), ' ')
  {
    EscapeWithout(tag.1, ' ', slashes);
  }

  lemma SpacedTag(key: string, v: string, p: nat, slashes: bool)
    requires p < |v| && v[p] == ' '
    ensures TagText((key, v), slashes) == TagText((key, v[..p]), slashes) + ['\\'] + [' '] + Escape(v[p + 1..], slashes)
  {
    assert v == v[..p] + [' '] + v[p + 1..];
    EscapeSplits(v[..p], ' ', v[p + 1..], slashes);
  }

  lemma Around(a: string, b: string, c: string, d: string)
    ensures [','] + (a + ['\\'] + [' '] + c) + d == ([','] + a + ['\\']) + [' '] + (c + d)
    ensures a + (b + [' '] + c) == (a + b) + [' '] + c
  {
  }

  lemma WithoutAppend(a: string, b: string, c: char)
    requires Without(a, c) && Without(b, c)
    ensures Without(a + b, c)
  {
  }

  lemma {:induction false} FirstSpace(tags: seq<(string, string)>, slashes: bool)
    requires forall i :: 0 <= i < |tags| ==> Without(tags[i].0, ' ')
    requires !NoSpaces(tags)
    ensures Later(tags, slashes) == BeforeSpace(tags, slashes) + [' '] + AfterSpace(tags, slashes)
    ensures Without(BeforeSpace(tags, slashes), ' ')
  {
    var key, v := tags[0].0, tags[0].1;
    var p := Find(v, ' ');
    if p < |v| {
      var text := TagText((key, v[..p]), slashes);
      TagWithout((key, v[..p]), slashes);
      SpacedTag(key, v, p, slashes);
      assert tags[0] == (key, v);
      Around(text, "", Escape(v[p + 1..], slashes), Later(tags[1..], slashes));
      WithoutAppend([','], text, ' ');
      WithoutAppend([','] + text, ['\\'], ' ');
    } else {
      TagWithout(tags[0], slashes);
      assert forall i :: 0 < i < |tags| ==> tags[i] == tags[1..][i - 1];
      FirstSpace(tags[1..], slashes);
      var text := [','] + TagText(tags[0], slashes);
      Around(text, BeforeSpace(tags[1..], slashes), AfterSpace(tags[1..], slashes), "");
      WithoutAppend([','], TagText(tags[0], slashes), ' ');
      WithoutAppend(text, BeforeSpace(tags[1..], slashes), ' ');
    }
  }

  // --------------------------------------------------- no field called value

  /** Every equals sign is escaped or ends a key that is not value. */
  ghost predicate Guarded(t: string) {
    forall e :: 0 <= e < |t| && t[e] == '=' ==> GuardedAt(t, e)
  }

  ghost predicate GuardedAt(t: string, e: nat)
    requires e < |t|
  {
    (e > 0 && t[e - 1] == '\\') || exists b: nat :: KeyFrom(t, b, e)
  }

  predicate KeyFrom(t: string, b: nat, e: nat)
    requires e < |t|
  {
    b < e && t[b] == ',' && Without(t[b + 1..e], ',') && t[b + 1..e] != VALUE
  }

  lemma GuardedAppend(a: string, b: string)
    requires Guarded(a) && Guarded(b)
    ensures Guarded(a + b)
  {
    var t := a + b;
    forall e | 0 <= e < |t| && t[e] == '=' ensures GuardedAt(t, e) {
      if e < |a| {
        assert GuardedAt(a, e);
        if !(e > 0 && a[e - 1] == '\\') {
          var f: nat :| KeyFrom(a, f, e);
          assert t[f + 1..e] == a[f + 1..e];
          assert KeyFrom(t, f, e);
        }
      } else {
        assert GuardedAt(b, e - |a|);
        if !(e > |a| && b[e - |a| - 1] == '\\') {
          var f: nat :| KeyFrom(b, f, e - |a|);
          assert t[|a| + f + 1..e] == b[f + 1..e - |a|];
          assert KeyFrom(t, |a| + f, e);
        }
      }
    }
  }

  lemma {:induction false} GuardedEscape(v: string, slashes: bool)
    ensures Guarded(Escape(v, slashes))
  {
    if v != "" {
      GuardedEscape(v[1..], slashes);
      var first := if Special(v[0]) || (slashes && v[0] == '\\') then ['\\', v[0]] else [v[0]];
      assert Guarded(first) by {
        assert forall e :: 0 <= e < |first| && first[e] == '=' ==> e == 1 && first[0] == '\\';
      }
      GuardedAppend(first, Escape(v[1..], slashes));
    }
  }

  lemma GuardedKey(key: string)
    requires KeyOk(key)
    ensures Guarded([','] + key + ['='])
  {
    var t := [','] + key + ['='];
    assert forall i :: 0 < i < |t| - 1 ==> t[i] == key[i - 1];
    forall e | 0 <= e < |t| && t[e] == '=' ensures GuardedAt(t, e) {
      assert t[1..e] == key;
      assert KeyFrom(t, 0, e);
    }
  }

  lemma {:induction false} GuardedLater(tags: seq<(string, string)>, slashes: bool)
    requires forall i :: 0 <= i < |tags| ==> KeyOk(tags[i].0)
    ensures Guarded(Later(tags, slashes))
  {
    if tags != [] {
      var key, v := tags[0].0, Escape(tags[0].1, slashes);
      GuardedLater(tags[1..], slashes);
      GuardedKey(key);
      GuardedEscape(tags[0].1, slashes);
      GuardedAppend([','] + key + ['='], v);
      assert [','] + (key + ['='] + v) == ([','] + key + ['=']) + v;
      GuardedAppend([','] + TagText(tags[0], slashes), Later(tags[1..], slashes));
    }
  }

  lemma {:induction false} GuardedAfterSpace(tags: seq<(string, string)>, slashes: bool)
    requires forall i :: 0 <= i < |tags| ==> KeyOk(tags[i].0)
    ensures Guarded(AfterSpace(tags, slashes))
  {
    if tags != [] {
      var v := tags[0].1;
      var p := Find(v, ' ');
      if p < |v| {
        GuardedValueThen(v[p + 1..], tags[1..], slashes);
      } else {
        GuardedAfterSpace(tags[1..], slashes);
      }
    }
  }

  lemma GuardedValueThen(v: string, tags: seq<(string, string)>, slashes: bool)
    requires forall i :: 0 <= i < |tags| ==> KeyOk(tags[i].0)
    ensures Guarded(Escape(v, slashes) + Later(tags, slashes))
  {
    GuardedEscape(v, slashes);
    GuardedLater(tags, slashes);
    GuardedAppend(Escape(v, slashes), Later(tags, slashes));
  }

  lemma {:induction false} GuardedStripped(t: string)
    requires Guarded(t)
    ensures Guarded(LStrip(t))
  {
    if t != "" && IsSpace(t[0]) {
      var u := t[1..];
      forall e | 0 <= e < |u| && u[e] == '=' ensures GuardedAt(u, e) {
        assert t[e + 1] == '=' && GuardedAt(t, e + 1);
        if t[e] == '\\' {
          assert e > 0;
        } else {
          var f: nat :| KeyFrom(t, f, e + 1);
          assert f > 0 && u[f..e] == t[f + 1..e + 1];
          assert KeyFrom(u, f - 1, e);
        }
      }
      GuardedStripped(u);
    }
  }

  /** A key value= at `e`, at the start or after a comma. */
  predicate ValueAt(s: string, e: nat) {
    && 5 <= e < |s| && s[e] == '=' && s[e - 5..e] == VALUE
    && (e == 5 || s[e - 6] == ',')
  }

  lemma ValueLetters(s: string, e: nat)
    requires 5 <= e <= |s| && s[e - 5..e] == VALUE
    ensures s[e - 1] == 'e' && forall i :: e - 5 <= i < e ==> s[i] != ','
  {
    assert forall i :: e - 5 <= i < e ==> s[i] == s[e - 5..e][i - (e - 5)];
    assert s[e - 5..e][4] == 'e';
  }

  lemma WithoutSlice(s: string, a: nat, b: nat, c: char)
    requires a <= b <= |s| && Without(s[a..b], c)
    ensures forall i :: a <= i < b ==> s[i] != c
  {
    assert forall i :: a <= i < b ==> s[i] == s[a..b][i - a];
  }

  lemma GuardedHasNone(t: string, e: nat)
    requires Guarded(t)
    ensures !ValueAt(t, e)
  {
    if ValueAt(t, e) {
      assert GuardedAt(t, e);
      ValueLetters(t, e);
      var b: nat :| KeyFrom(t, b, e);
      WithoutSlice(t, b + 1, e, ',');
    }
  }

  lemma FieldChars(number: string, suffix: bool)
    requires Digits(number)
    ensures var f := ValueField(number, suffix);
      |f| > 5 && (forall i :: 0 <= i < |f| && f[i] == '=' ==> i == 5)
  {
    var f, raw := ValueField(number, suffix), if suffix then number + ['i'] else number;
    assert forall i :: 6 <= i < |f| ==> f[i] == raw[i - 6];
    assert forall i :: 0 <= i < 5 ==> f[i] == VALUE[i];
  }

  /** A key that ends in the text before it is there already. */
  lemma ValueBefore(t: string, rest: string, e: nat)
    requires e < |t| && ValueAt(t + rest, e)
    ensures ValueAt(t, e)
  {
    assert (t + rest)[e - 5..e] == t[e - 5..e];
  }

  /** Guarded text, a space and a field: the only plain key is the field's, and the
      space is in front of it. */
  lemma NoValueAt(t: string, number: string, suffix: bool, e: nat)
    requires Guarded(t) && t != "" && Digits(number)
    ensures !ValueAt(t + [' '] + ValueField(number, suffix), e)
  {
    var f := ValueField(number, suffix);
    var s := t + [' '] + f;
    FieldChars(number, suffix);
    assert s == t + ([' '] + f);
    if e < |t| {
      GuardedHasNone(t, e);
      if ValueAt(s, e) { ValueBefore(t, [' '] + f, e); }
    } else if |t| < e < |s| {
      assert s[e] == f[e - |t| - 1] && s[|t|] == ' ';
    }
  }

  lemma PartShows(s: string)
    requires IsValue(s[..Find(s, ',')])
    ensures ValueAt(s, 5)
  {
    var part := s[..Find(s, ',')];
    var e := Find(part, '=');
    assert part[..e] == VALUE && |part[..e]| == 5;
    assert s[0..5] == part[..e];
  }

  lemma RestShows(s: string, n: nat, e: nat)
    requires n < |s| && s[n] == ',' && ValueAt(s[n + 1..], e)
    ensures ValueAt(s, n + 1 + e)
  {
    var rest := s[n + 1..];
    assert s[n + 1 + e - 5..n + 1 + e] == rest[e - 5..e];
    assert e > 5 ==> s[n + 1 + e - 6] == rest[e - 6];
  }

  /** A field called value shows in the text it is split from. */
  lemma {:induction false} ValueShows(s: string, nums: Numbers)
    requires forall e: nat :: !ValueAt(s, e)
    ensures FieldValue(Split(s, ','), nums) == NotNumeric
    decreases |s|
  {
    var n := Find(s, ',');
    if IsValue(s[..n]) { PartShows(s); }
    if n < |s| {
      var rest := s[n + 1..];
      forall e: nat ensures !ValueAt(rest, e) { if ValueAt(rest, e) { RestShows(s, n, e); } }
      ValueShows(rest, nums);
      assert Split(s, ',')[0] == s[..n] && Split(s, ',')[1..] == Split(rest, ',');
    } else {
      assert s[..n] == s;
    }
  }

  // -------------------------------------------------------------- a lost row

  predicate Blank(s: string) {
    forall i :: 0 <= i < |s| ==> IsSpace(s[i])
  }

  /** The only space of all values has nothing but other white space after it, at
      the end of the last value. */
  predicate OnlyTrailing(tags: seq<(string, string)>) {
    tags != [] && NoSpaces(tags[..|tags| - 1]) &&
    var v := tags[|tags| - 1].1;
    var p := Find(v, ' ');
    p < |v| && Blank(v[p + 1..]) && Without(v[p + 1..], ' ')
  }

  lemma BlankCons(c: char, s: string)
    ensures Blank([c] + s) <==> IsSpace(c) && Blank(s)
    ensures Without([c] + s, ' ') <==> c != ' ' && Without(s, ' ')
  {
    var t := [c] + s;
    assert t[0] == c && forall i :: 0 < i < |t| ==> t[i] == s[i - 1];
    forall i | 0 <= i < |s| ensures Blank(t) ==> IsSpace(s[i]) { assert s[i] == t[i + 1]; }
    forall i | 0 <= i < |s| ensures Without(t, ' ') ==> s[i] != ' ' { assert s[i] == t[i + 1]; }
  }

  lemma {:induction false} EscapeBlank(v: string, slashes: bool)
    ensures Blank(Escape(v, slashes)) <==> Blank(v) && Without(v, ' ')
  {
    if v != "" {
      EscapeBlank(v[1..], slashes);
      assert v == [v[0]] + v[1..];
      BlankCons(v[0], v[1..]);
      if Special(v[0]) || (slashes && v[0] == '\\') {
        assert Escape(v, slashes)[0] == '\\';
      } else {
        BlankCons(v[0], Escape(v[1..], slashes));
      }
    }
  }

  lemma NoSpacesCons(tag: (string, string), tags: seq<(string, string)>)
    ensures NoSpaces([tag] + tags) <==> Without(tag.1, ' ') && NoSpaces(tags)
  {
    var all := [tag] + tags;
    assert all[0] == tag && forall i :: 0 < i < |all| ==> all[i] == tags[i - 1];
    forall i | 0 <= i < |tags| ensures NoSpaces(all) ==> Without(tags[i].1, ' ') { assert all[i + 1] == tags[i]; }
  }

  /** A first tag without a space, with others after it, changes nothing. */
  lemma TrailingTail(tags: seq<(string, string)>)
    requires |tags| > 1
    ensures OnlyTrailing(tags) <==> Without(tags[0].1, ' ') && OnlyTrailing(tags[1..])
  {
    var rest := tags[1..];
    assert tags[..|tags| - 1] == [tags[0]] + rest[..|rest| - 1] && rest[|rest| - 1] == tags[|tags| - 1];
    NoSpacesCons(tags[0], rest[..|rest| - 1]);
  }

  lemma {:induction false} TailBlankIff(tags: seq<(string, string)>, slashes: bool)
    requires !NoSpaces(tags)
    ensures Blank(AfterSpace(tags, slashes)) <==> OnlyTrailing(tags)
  {
    var v := tags[0].1;
    var p := Find(v, ' ');
    var after := AfterSpace(tags, slashes);
    assert tags == [tags[0]] + tags[1..];
    NoSpacesCons(tags[0], tags[1..]);
    if |tags| > 1 { TrailingTail(tags); }
    if p < |v| {
      var e := Escape(v[p + 1..], slashes);
      EscapeBlank(v[p + 1..], slashes);
      if |tags| == 1 {
        assert Later(tags[1..], slashes) == "" && after == e;
      } else {
        assert after[|e|] == ',';
      }
    } else {
      TailBlankIff(tags[1..], slashes);
    }
  }

  lemma {:induction false} LStripBlank(t: string, u: string)
    requires Blank(t) && u != "" && !IsSpace(u[0])
    ensures LStrip(t + u) == u
  {
    if t == "" {
      assert t + u == u;
    } else {
      assert (t + u)[1..] == t[1..] + u;
      LStripBlank(t[1..], u);
    }
  }

  lemma {:induction false} LStripAppend(t: string, u: string)
    requires !Blank(t)
    ensures LStrip(t + u) == LStrip(t) + u && LStrip(t) != ""
  {
    if IsSpace(t[0]) {
      assert (t + u)[1..] == t[1..] + u;
      assert forall i :: 0 < i < |t| ==> t[i] == t[1..][i - 1];
      LStripAppend(t[1..], u);
    }
  }

  lemma LastWord(t: string, word: string)
    requires Without(word, ' ')
    ensures FieldsOf(t + [' '] + word) == if IsStamp(word) then t else t + [' '] + word
  {
    var s := t + [' '] + word;
    FindLastAt(t, ' ', word);
    assert s[..|t|] == t && s[|t| + 1..] == word;
  }

  lemma Join(a: string, b: string, c: string)
    ensures a + [' '] + (b + [' '] + c) == a + [' '] + b + [' '] + c
    ensures (a + [' ']) + b == a + [' '] + b && a + ([' '] + b) == a + [' '] + b
  {
  }

  lemma FieldsAfter(t: string, field: string, stamp: Option<string>)
    requires Trim(field) && !IsStamp(field) && (stamp.Some? ==> Trim(stamp.value) && IsStamp(stamp.value))
    ensures FieldsOf(t + [' '] + RenderRest(field, stamp)) == t + [' '] + field
  {
    if stamp.Some? {
      Join(t, field, stamp.value);
      LastWord(t + [' '] + field, stamp.value);
    } else {
      LastWord(t, field);
    }
  }

  lemma LastChar(t: string, u: string)
    requires u != "" && !IsSpace(u[|u| - 1])
    ensures t + u != "" && !IsSpace((t + u)[|t + u| - 1]) && RStrip(t + u) == t + u
  {
    assert (t + u)[|t + u| - 1] == u[|u| - 1];
  }

  lemma StripAppend(t: string, u: string)
    requires u != "" && !IsSpace(u[0]) && !IsSpace(u[|u| - 1])
    ensures Strip(t + u) == if Blank(t) then u else LStrip(t) + u
  {
    if Blank(t) {
      LStripBlank(t, u);
      LastChar("", u);
      assert "" + u == u;
    } else {
      LStripAppend(t, u);
      LastChar(LStrip(t), u);
    }
  }

  lemma SpaceAfter(t: string)
    ensures Blank(t + [' ']) <==> Blank(t)
    ensures !Blank(t) ==> LStrip(t + [' ']) == LStrip(t) + [' ']
  {
    assert forall i :: 0 <= i < |t| ==> (t + [' '])[i] == t[i];
    if !Blank(t) { LStripAppend(t, [' ']); }
  }

  lemma RestEnds(field: string, stamp: Option<string>)
    requires Trim(field) && (stamp.Some? ==> Trim(stamp.value))
    ensures var rest := RenderRest(field, stamp); rest != "" && !IsSpace(rest[0]) && !IsSpace(rest[|rest| - 1])
  {
  }

  /** What is left of a line after its first space, stripped. */
  lemma StrippedRest(after: string, rest: string)
    requires rest != "" && !IsSpace(rest[0]) && !IsSpace(rest[|rest| - 1])
    ensures Strip(after + [' '] + rest) == if Blank(after) then rest else LStrip(after) + [' '] + rest
  {
    SpaceAfter(after);
    StripAppend(after + [' '], rest);
    Join(after, rest, "");
    Join(LStrip(after), rest, "");
  }

  lemma SplitsAt(before: string, tail: string)
    requires before != "" && Without(before, ' ') && !IsSpace(before[0])
    requires tail != "" && !IsSpace(tail[|tail| - 1]) && Strip(tail) != ""
    ensures var line := before + [' '] + tail;
      Strip(line) == line && line[0] == before[0] && SplitMeasurement(line) == Parts(before, FieldsOf(Strip(tail)))
  {
    LineSplitsAt(before, tail);
  }

  lemma SpacedLine(before: string, after: string, field: string, stamp: Option<string>)
    requires before != "" && Without(before, ' ') && !IsSpace(before[0]) && Trim(field) && !IsStamp(field)
    requires stamp.Some? ==> Trim(stamp.value) && IsStamp(stamp.value)
    ensures var line := before + [' '] + (after + [' '] + RenderRest(field, stamp));
      && Strip(line) == line && line[0] == before[0]
      && SplitMeasurement(line) == Parts(before, if Blank(after) then field else LStrip(after) + [' '] + field)
  {
    var rest := RenderRest(field, stamp);
    RestEnds(field, stamp);
    LastChar(after + [' '], rest);
    StrippedRest(after, rest);
    SplitsAt(before, after + [' '] + rest);
    if Blank(after) { RestSplits(field, stamp); } else { FieldsAfter(LStrip(after), field, stamp); }
  }

  lemma FieldIsNoStamp(number: string, suffix: bool)
    ensures !IsStamp(ValueField(number, suffix))
  {
    assert ValueField(number, suffix)[0] == 'v';
  }

  /** A written row whose tags hold a space: its head, and its number or none. */
  lemma SpacedRow(m: string, tags: seq<(string, string)>, slashes: bool, number: string, suffix: bool,
                  stamp: Option<string>, nums: Numbers)
    requires MeasurementOk(m) && KeysOk(tags) && Digits(number) && !NoSpaces(tags)
    requires stamp.Some? ==> Trim(stamp.value) && IsStamp(stamp.value)
    ensures var line := RenderLine(RenderHead(m, tags, slashes), ValueField(number, suffix), stamp);
            var parts := SplitMeasurement(line);
      && line != "" && Strip(line) == line && line[0] == m[0] && parts.Parts?
      && parts.head == m + BeforeSpace(tags, slashes) && Without(parts.head, ' ')
      && FieldValue(Split(parts.fields, ','), nums) == if OnlyTrailing(tags) then nums.toFloat(number) else NotNumeric
  {
    var head, field := RenderHead(m, tags, slashes), ValueField(number, suffix);
    var before, after := m + BeforeSpace(tags, slashes), AfterSpace(tags, slashes);
    HeadIsLater(m, tags, slashes);
    FirstSpace(tags, slashes);
    WithoutAppend(m, BeforeSpace(tags, slashes), ' ');
    ValueReadBack(number, suffix, nums);
    FieldIsNoStamp(number, suffix);
    SpacedLine(before, after, field, stamp);
    SpacedText(m, BeforeSpace(tags, slashes), after, RenderRest(field, stamp));
    TailBlankIff(tags, slashes);
    if Blank(after) {
      OneField(field, nums);
    } else {
      GuardedAfterSpace(tags, slashes);
      GuardedStripped(after);
      LStripAppend(after, "");
      forall e: nat ensures !ValueAt(LStrip(after) + [' '] + field, e) { NoValueAt(LStrip(after), number, suffix, e); }
      ValueShows(LStrip(after) + [' '] + field, nums);
    }
  }

  lemma SpacedText(m: string, b: string, a: string, rest: string)
    ensures m + (b + [' '] + a) + [' '] + rest == (m + b) + [' '] + (a + [' '] + rest)
  {
  }

  /** Exactly when a written row is lost, whatever it says: when a tag value holds a
      space, unless the only one ends the last value. */
  lemma SpacesLoseRowIff(m: string, tags: seq<(string, string)>, slashes: bool, number: string, suffix: bool,
                         stamp: Option<string>, nums: Numbers)
    requires MeasurementOk(m) && KeysOk(tags) && Digits(number) && nums.toFloat(number) != NotNumeric
    requires stamp.Some? ==> Trim(stamp.value) && IsStamp(stamp.value)
    ensures var line := RenderLine(RenderHead(m, tags, slashes), ValueField(number, suffix), stamp);
      && (NumberRead(line, nums) == nums.toFloat(number) <==> NoSpaces(tags) || OnlyTrailing(tags))
      && (!NoSpaces(tags) && !OnlyTrailing(tags) ==> ParseRow(line, nums) == Skip)
  {
    var head, field := RenderHead(m, tags, slashes), ValueField(number, suffix);
    if NoSpaces(tags) {
      HeadIsLater(m, tags, slashes);
      LaterWithout(tags, slashes);
      WithoutAppend(m, Later(tags, slashes), ' ');
      ValueReadBack(number, suffix, nums);
      LineSplits(head, field, stamp);
      OneField(field, nums);
    } else {
      SpacedRow(m, tags, slashes, number, suffix, stamp, nums);
      var line := RenderLine(head, field, stamp);
      RowOf(line, SplitMeasurement(line).head, SplitMeasurement(line).fields, nums);
    }
  }

  lemma {:induction false} LaterWithout(tags: seq<(string, string)>, slashes: bool)
    requires NoSpaces(tags) && forall i :: 0 <= i < |tags| ==> Without(tags[i].0, ' ')
    ensures Without(Later(tags, slashes), ' ')
  {
    if tags != [] {
      assert forall i :: 0 < i < |tags| ==> tags[i] == tags[1..][i - 1];
      LaterWithout(tags[1..], slashes);
      TagWithout(tags[0], slashes);
      WithoutAppend([','], TagText(tags[0], slashes), ' ');
      WithoutAppend([','] + TagText(tags[0], slashes), Later(tags[1..], slashes), ' ');
    }
  }

  /** The number the reader finds in a line. */
  function NumberRead(line: string, nums: Numbers): Num {
    match SplitMeasurement(Strip(line))
    case NoParts => NotNumeric
    case Parts(_, fields) => FieldValue(Split(fields, ','), nums)
  }

  /** The tags the reader finds in a line. */
  function TagsRead(line: string): Tags {
    match SplitMeasurement(Strip(line))
    case NoParts => map[]
    case Parts(head, _) => ReadTags(TagParts(head))
  }

  // ------------------------------------------------- exactly when it reads back

  lemma {:induction false} UnescapeWithout(s: string, c: char)
    requires Without(s, c)
    ensures Without(Unescape(s), c)
    decreases |s|
  {
    if s != "" {
      if s[0] == '\\' && |s| > 1 {
        assert forall i :: 0 <= i < |s| - 2 ==> s[2..][i] == s[i + 2];
        UnescapeWithout(s[2..], c);
        WithoutAppend([s[1]], Unescape(s[2..]), c);
      } else {
        assert forall i :: 0 <= i < |s| - 1 ==> s[1..][i] == s[i + 1];
        UnescapeWithout(s[1..], c);
        WithoutAppend([s[0]], Unescape(s[1..]), c);
      }
    }
  }

  lemma WithoutPart(s: string, a: nat, b: nat, c: char)
    requires a <= b <= |s| && Without(s, c)
    ensures Without(s[a..b], c)
  {
  }

  /** A character no part has is in no value read. */
  lemma {:induction false} ReadWithout(parts: seq<string>, c: char, key: string)
    requires forall i :: 0 <= i < |parts| ==> Without(parts[i], c)
    requires key in ReadTags(parts)
    ensures Without(ReadTags(parts)[key], c)
  {
    if parts != [] {
      var init, last := parts[..|parts| - 1], parts[|parts| - 1];
      var n := Find(last, '=');
      if n < |last| && key == last[..n] {
        WithoutPart(last, n + 1, |last|, c);
        UnescapeWithout(last[n + 1..], c);
      } else {
        ReadWithout(init, c, key);
      }
    }
  }

  lemma {:induction false} SplitParts(s: string, c: char)
    ensures forall i :: 0 <= i < |Split(s, c)| ==> Without(Split(s, c)[i], c)
    decreases |s|
  {
    var n := Find(s, c);
    if n < |s| {
      SplitParts(s[n + 1..], c);
      assert Split(s, c) == [s[..n]] + Split(s[n + 1..], c);
    }
  }

  lemma {:induction false} SplitKeeps(s: string, c: char, d: char)
    requires Without(s, d)
    ensures forall i :: 0 <= i < |Split(s, c)| ==> Without(Split(s, c)[i], d)
    decreases |s|
  {
    var n := Find(s, c);
    if n < |s| {
      WithoutPart(s, 0, n, d);
      WithoutPart(s, n + 1, |s|, d);
      SplitKeeps(s[n + 1..], c, d);
      assert Split(s, c) == [s[..n]] + Split(s[n + 1..], c);
    }
  }

  /** No value read from a head has a comma, or a character the head does not have. */
  lemma HeadReads(head: string, key: string)
    requires key in ReadTags(TagParts(head))
    ensures Without(ReadTags(TagParts(head))[key], ',')
    ensures forall d :: Without(head, d) ==> Without(ReadTags(TagParts(head))[key], d)
  {
    var n := Find(head, ',');
    if n + 1 < |head| {
      var blob := head[n + 1..];
      SplitParts(blob, ',');
      ReadWithout(TagParts(head), ',', key);
      forall d | Without(head, d) ensures Without(ReadTags(TagParts(head))[key], d) {
        WithoutPart(head, n + 1, |head|, d);
        SplitKeeps(blob, ',', d);
        ReadWithout(TagParts(head), d, key);
      }
    }
  }

  /** Under distinct keys every tag keeps its value. */
  lemma {:induction false} MapHolds(tags: seq<(string, string)>, i: nat)
    requires i < |tags| && forall i, j :: 0 <= i < j < |tags| ==> tags[i].0 != tags[j].0
    ensures tags[i].0 in TagMap(tags) && TagMap(tags)[tags[i].0] == tags[i].1
  {
    if i < |tags| - 1 {
      assert tags[..|tags| - 1][i] == tags[i];
      MapHolds(tags[..|tags| - 1], i);
    }
  }

  /** The tags as they come back from a reader that cuts them right. */
  function Echo(tags: seq<(string, string)>, slashes: bool): seq<(string, string)> {
    seq(|tags|, i requires 0 <= i < |tags| => (tags[i].0, Unescape(Escape(tags[i].1, slashes))))
  }

  lemma EchoTag(before: seq<string>, tag: (string, string), slashes: bool)
    requires Without(tag.0, '=')
    ensures ReadTags(before + [TagText(tag, slashes)]) ==
            ReadTags(before)[tag.0 := Unescape(Escape(tag.1, slashes))]
  {
    FieldSplits(tag.0, Escape(tag.1, slashes));
    ReadTag(before, TagText(tag, slashes), (tag.0, Unescape(Escape(tag.1, slashes))));
  }

  lemma MapSnoc(tags: seq<(string, string)>, tag: (string, string))
    ensures TagMap(tags + [tag]) == TagMap(tags)[tag.0 := tag.1]
  {
    assert (tags + [tag])[..|tags|] == tags;
  }

  lemma TextsSnoc(tags: seq<(string, string)>, tag: (string, string), slashes: bool)
    ensures TagTexts(tags + [tag], slashes) == TagTexts(tags, slashes) + [TagText(tag, slashes)]
  {
  }

  lemma EchoSnoc(tags: seq<(string, string)>, tag: (string, string), slashes: bool)
    ensures Echo(tags + [tag], slashes) == Echo(tags, slashes) + [(tag.0, Unescape(Escape(tag.1, slashes)))]
  {
  }

  lemma {:induction false} TextsEcho(tags: seq<(string, string)>, slashes: bool)
    requires forall i :: 0 <= i < |tags| ==> Without(tags[i].0, '=')
    ensures ReadTags(TagTexts(tags, slashes)) == TagMap(Echo(tags, slashes))
  {
    if tags != [] {
      var init, tag := tags[..|tags| - 1], tags[|tags| - 1];
      assert tags == init + [tag];
      TextsEcho(init, slashes);
      TextsSnoc(init, tag, slashes);
      EchoSnoc(init, tag, slashes);
      EchoTag(TagTexts(init, slashes), tag, slashes);
      MapSnoc(Echo(init, slashes), (tag.0, Unescape(Escape(tag.1, slashes))));
    }
  }

  predicate NoCommas(tags: seq<(string, string)>) {
    forall i :: 0 <= i < |tags| ==> Without(tags[i].1, ',')
  }

  predicate SlashesOk(tags: seq<(string, string)>, slashes: bool) {
    slashes || forall i :: 0 <= i < |tags| ==> SlashSafe(tags[i].1)
  }

  /** A tag lost or changed on the way shows. */
  lemma Differs(head: string, tags: seq<(string, string)>, i: nat)
    requires KeysOk(tags) && i < |tags|
    requires !Without(tags[i].1, ',') || (Without(head, ' ') && !Without(tags[i].1, ' '))
    ensures ReadTags(TagParts(head)) != TagMap(tags)
  {
    MapHolds(tags, i);
    if tags[i].0 in ReadTags(TagParts(head)) { HeadReads(head, tags[i].0); }
  }

  lemma PlainHead(m: string, tags: seq<(string, string)>, slashes: bool)
    requires MeasurementOk(m) && KeysOk(tags) && NoSpaces(tags)
    ensures Without(RenderHead(m, tags, slashes), ' ')
    ensures RenderHead(m, tags, slashes) != "" && RenderHead(m, tags, slashes)[0] == m[0]
  {
    HeadIsLater(m, tags, slashes);
    LaterWithout(tags, slashes);
    WithoutAppend(m, Later(tags, slashes), ' ');
  }

  /** Without separators in the values the parts are the texts. */
  lemma CutRight(m: string, tags: seq<(string, string)>, slashes: bool)
    requires MeasurementOk(m) && KeysOk(tags) && NoCommas(tags)
    ensures ReadTags(TagParts(RenderHead(m, tags, slashes))) == TagMap(Echo(tags, slashes))
  {
    if tags == [] {
      BareHead(m);
      assert Echo(tags, slashes) == [];
    } else {
      var texts := TagTexts(tags, slashes);
      forall i | 0 <= i < |texts| ensures Without(texts[i], ',') && texts[i] != "" {
        EscapeWithout(tags[i].1, ',', slashes);
        WithoutAppend(tags[i].0 + ['='], Escape(tags[i].1, slashes), ',');
      }
      HeadSplits(m, texts);
      TextsEcho(tags, slashes);
    }
  }

  /** A writer that leaves backslashes alone: the tags come back exactly when their
      backslashes are safe. */
  lemma EchoIff(tags: seq<(string, string)>, slashes: bool)
    requires KeysOk(tags)
    ensures TagMap(Echo(tags, slashes)) == TagMap(tags) <==> SlashesOk(tags, slashes)
  {
    var echo := Echo(tags, slashes);
    if SlashesOk(tags, slashes) {
      forall i | 0 <= i < |tags| ensures echo[i] == tags[i] { EscapeBack(tags[i].1, slashes); }
      assert echo == tags;
    } else {
      var i :| 0 <= i < |tags| && !SlashSafe(tags[i].1);
      PlainEscapeRoundTrip(tags[i].1);
      MapHolds(tags, i);
      MapHolds(echo, i);
    }
  }

  /** Exactly when the tags of a written row are read as they were: when no value
      holds a space or a comma and the writer's escaping keeps every backslash. */
  lemma TagsReadBackIff(m: string, tags: seq<(string, string)>, slashes: bool, number: string, suffix: bool,
                        stamp: Option<string>, nums: Numbers)
    requires MeasurementOk(m) && KeysOk(tags) && Digits(number)
    requires stamp.Some? ==> Trim(stamp.value) && IsStamp(stamp.value)
    ensures var line := RenderLine(RenderHead(m, tags, slashes), ValueField(number, suffix), stamp);
      TagsRead(line) == TagMap(tags) <==> NoSpaces(tags) && NoCommas(tags) && SlashesOk(tags, slashes)
  {
    var head, field := RenderHead(m, tags, slashes), ValueField(number, suffix);
    if !NoSpaces(tags) {
      SpacedRow(m, tags, slashes, number, suffix, stamp, nums);
      var i :| 0 <= i < |tags| && !Without(tags[i].1, ' ');
      Differs(m + BeforeSpace(tags, slashes), tags, i);
    } else {
      PlainHead(m, tags, slashes);
      ValueReadBack(number, suffix, nums);
      LineSplits(head, field, stamp);
      if NoCommas(tags) {
        CutRight(m, tags, slashes);
        EchoIff(tags, slashes);
      } else {
        var i :| 0 <= i < |tags| && !Without(tags[i].1, ',');
        Differs(head, tags, i);
      }
    }
  }
}
