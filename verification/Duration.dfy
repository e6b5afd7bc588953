/** Reading a playlist's duration (EXTINF, section 4.3.2.1 of RFC 8216), and that
    neither transformation changes it.  Floating point stays abstract: the sum is
    whatever adding the parsed fields in order gives. */
module Duration {
  import opened Text
  import opened VodLines
  import opened Playlist

  datatype Parsed<F> = NotANumber | Number(value: F)

  datatype Floats<!F> = Floats(zero: F, parse: string -> Parsed<F>, add: (F, F) -> F, toMs: F -> int)

  datatype Millis = Unknown | Millis(ms: int)

  /** The seconds field of an EXTINF line. */
  function Seconds(line: string): seq<string> {
    if StartsWith(line, "#EXTINF:") then [Strip(Split(line[8..], ',')[0])] else []
  }

  datatype Sum<F> = Sum(total: F, found: bool)

  function Add<F>(fields: seq<string>, fl: Floats<F>): Sum<F> {
    if fields == [] then Sum(fl.zero, false)
    else
      var before := Add(fields[..|fields| - 1], fl);
      match fl.parse(fields[|fields| - 1])
      case NotANumber => before
      case Number(v) => Sum(fl.add(before.total, v), true)
  }

  lemma AddSnoc<F>(fields: seq<string>, field: string, fl: Floats<F>)
    ensures Add(fields + [field], fl) ==
      match fl.parse(field)
      case NotANumber => Add(fields, fl)
      case Number(v) => Sum(fl.add(Add(fields, fl).total, v), true)
  {
    assert (fields + [field])[..|fields|] == fields;
  }

  function PlaylistMs<F>(text: string, fl: Floats<F>): Millis {
    var sum := Add(Select(SplitLines(text), Seconds), fl);
    if sum.found then Millis(fl.toMs(sum.total)) else Unknown
  }

  /** `playlist_duration_ms` of an existing file. */
  method PlaylistDurationMs<F>(text: string, fl: Floats<F>) returns (out: Millis)
    ensures out == PlaylistMs(text, fl)
  {
    var lines := SplitLines(text);
    var total, found := fl.zero, false;
    for i := 0 to |lines|
      invariant Sum(total, found) == Add(Select(lines[..i], Seconds), fl)
    {
      ghost var before := Select(lines[..i], Seconds);
      assert lines[..i + 1] == lines[..i] + [lines[i]];
      SelectSnoc(lines[..i], lines[i], Seconds);
      total, found := AddLineSeconds(lines[i], total, found, before, fl);
    }
    assert lines[..|lines|] == lines;
    if !found {
      return Unknown;
    }
    return Millis(fl.toMs(total));
  }

  /** The loop's body: a field that does not parse is skipped. */
  method AddLineSeconds<F>(line: string, total: F, found: bool, ghost before: seq<string>, fl: Floats<F>)
    returns (total': F, found': bool)
    requires Sum(total, found) == Add(before, fl)
    ensures Sum(total', found') == Add(before + Seconds(line), fl)
  {
    total', found' := total, found;
    if StartsWith(line, "#EXTINF:") {
      var payload := line[8..];
      var field := Strip(Split(payload, ',')[0]);
      AddSnoc(before, field, fl);
      match fl.parse(field)
      case NotANumber =>
      case Number(v) => total', found' := fl.add(total, v), true;
    } else {
      assert before + [] == before;
    }
  }

  lemma CharAt(s: string, p: string, i: nat)
    requires StartsWith(s, p) && i < |p|
    ensures i < |s| && s[i] == p[i]
  {
    assert s[..|p|][i] == s[i];
  }

  lemma ExtInfPlain(line: string)
    requires StartsWith(line, "#EXTINF:")
    ensures LineTag(line) == Plain && !IsRelative(line)
  {
    StripPrefix(line, "#EXTINF:");
    var s := Strip(line);
    FirstChar(s, "#EXTINF:");
    CharAt(s, "#EXTINF:", 4);
    if StartsWith(s, "#EXT-X-ENDLIST") { CharAt(s, "#EXT-X-ENDLIST", 4); assert false; }
    if StartsWith(s, "#EXT-X-PLAYLIST-TYPE:") { CharAt(s, "#EXT-X-PLAYLIST-TYPE:", 4); assert false; }
    if StartsWith(s, "#EXT-X-TARGETDURATION") { CharAt(s, "#EXT-X-TARGETDURATION", 4); assert false; }
    assert s[..1] == "#";
  }

  lemma TaggedNoSeconds(line: string)
    requires LineTag(line) in {End, Type}
    ensures Seconds(line) == []
  {
    if StartsWith(line, "#EXTINF:") { ExtInfPlain(line); assert false; }
  }

  lemma RewriteKeepsSeconds(line: string, assetId: string)
    ensures Seconds(Rewrite(line, assetId)) == Seconds(line)
  {
    if StartsWith(line, "#EXTINF:") {
      ExtInfPlain(line);
    } else if IsRelative(line) {
      RewrittenFirst(line, assetId);
      if StartsWith(Rewrite(line, assetId), "#EXTINF:") { FirstChar(Rewrite(line, assetId), "#EXTINF:"); assert false; }
    }
  }

  lemma FinalizedSeconds(lines: seq<string>)
    ensures Select(Finalized(lines), Seconds) == Select(lines, Seconds)
  {
    forall line | line in lines && LineTag(line) in {End, Type} ensures Seconds(line) == [] { TaggedNoSeconds(line); }
    OwnTags();
    TaggedNoSeconds(VOD);
    TaggedNoSeconds(ENDLIST);
    SelectClose(lines, LineTag, VOD, ENDLIST, Seconds);
  }

  lemma RewrittenSeconds(lines: seq<string>, assetId: string)
    ensures Select(Rewritten(lines, assetId), Seconds) == Select(lines, Seconds)
  {
    forall line | line in lines ensures Seconds(Rewrite(line, assetId)) == Seconds(line) { RewriteKeepsSeconds(line, assetId); }
    SelectMap(lines, line => Rewrite(line, assetId), Seconds, Seconds);
  }

  lemma FinalizeDuration<F>(text: string, fl: Floats<F>)
    ensures PlaylistMs(FinalizeText(text), fl) == PlaylistMs(text, fl)
  {
    FinalizedSplits(text);
    FinalizedSeconds(SplitLines(text));
  }

  /** Written lines have the seconds they were written with. */
  lemma WrittenSeconds(lines: seq<string>)
    requires LinesOk(lines)
    ensures Select(SplitLines(JoinLines(lines) + "\n"), Seconds) == Select(lines, Seconds)
  {
    SplitWritten(lines);
    if lines == [] { BlankSeconds(); }
  }

  /** A playlist keeps its duration when finalised and when served, whatever it
      contains, the empty file included. */
  lemma DurationInvariant<F>(text: string, assetId: string, fl: Floats<F>)
    requires NoBreak(assetId)
    ensures PlaylistMs(FinalizeText(text), fl) == PlaylistMs(text, fl)
    ensures PlaylistMs(RewriteText(text, assetId), fl) == PlaylistMs(text, fl)
  {
    var lines := SplitLines(text);
    var r := Rewritten(lines, assetId);
    FinalizeDuration(text, fl);
    RewrittenOk(lines, assetId);
    WrittenSeconds(r);
    RewrittenSeconds(lines, assetId);
    FinalizeDuration(JoinLines(r) + "\n", fl);
  }

  lemma BlankSeconds()
    ensures Select([""], Seconds) == Select<string, string>([], Seconds)
  {
    assert Select([""][..0], Seconds) == [];
  }
}
