/** The HLS playlist transformations of the postprocess worker and the API
    (RFC 8216): forcing a media playlist to VOD, pointing its relative URIs at the
    API, and reading its duration. */
module Playlist {
  import opened Text
  import opened VodLines

  const ENDLIST := "#EXT-X-ENDLIST"
  const VOD := "#EXT-X-PLAYLIST-TYPE:VOD"

  function LineTag(line: string): Tag {
    var s := Strip(line);
    if StartsWith(s, "#EXT-X-ENDLIST") then End
    else if StartsWith(s, "#EXT-X-PLAYLIST-TYPE:") then Type
    else if StartsWith(s, "#EXT-X-TARGETDURATION") then Target
    else Plain
  }

  lemma VodStarts()
    ensures StartsWith(VOD, "#EXT-X-PLAYLIST-TYPE:") && !StartsWith(VOD, "#EXT-X-ENDLIST")
  {
    assert VOD[..21] == "#EXT-X-PLAYLIST-TYPE:";
    assert VOD[..14][7] == 'P';
  }

  lemma VodTag()
    ensures LineTag(VOD) == Type && NoBreak(VOD)
  {
    StripKeeps(VOD);
    VodStarts();
  }

  lemma EndTag()
    ensures LineTag(ENDLIST) == End && NoBreak(ENDLIST)
  {
    StripKeeps(ENDLIST);
  }

  lemma OwnTags()
    ensures LineTag(VOD) == Type && LineTag(ENDLIST) == End && NoBreak(VOD) && NoBreak(ENDLIST)
  {
    VodTag();
    EndTag();
  }

  function Finalized(lines: seq<string>): seq<string> {
    Close(lines, LineTag, VOD, ENDLIST)
  }

  function FinalizeText(text: string): string {
    JoinLines(Finalized(SplitLines(text))) + "\n"
  }

  /** `finalize_vod_playlist_text`. */
  method FinalizeVodPlaylistText(text: string) returns (out: string)
    ensures out == FinalizeText(text)
  {
    var lines := FinalizeLines(SplitLines(text));
    out := JoinLines(lines) + "\n";
  }

  method FinalizeLines(input: seq<string>) returns (lines: seq<string>)
    ensures lines == Finalized(input)
  {
    lines := [];
    var target := -1;
    var hasVod := false;
    for i := 0 to |input|
      invariant lines == Body(input[..i], LineTag, VOD)
      invariant hasVod <==> Has(input[..i], LineTag, Type)
      invariant target == LastTarget(lines, LineTag)
    {
      var line := input[i];
      assert input[..i + 1] == input[..i] + [line];
      BodySnoc(input[..i], line, LineTag, VOD);
      HasSnoc(input[..i], line, LineTag, Type);
      hasVod, target, lines := AddLine(line, hasVod, target, lines);
    }
    assert input[..|input|] == input;
    if !hasVod {
      var at := if target >= 0 then target + 1 else if |lines| < 1 then |lines| else 1;
      lines := Insert(lines, at, VOD);
    }
    lines := lines + [ENDLIST];
  }

  /** The loop's body: drop, replace, or keep and remember. */
  method AddLine(line: string, hasVod: bool, target: int, lines: seq<string>)
    returns (hasVod': bool, target': int, lines': seq<string>)
    requires target == LastTarget(lines, LineTag)
    ensures hasVod' == (hasVod || LineTag(line) == Type)
    ensures lines' == lines + match LineTag(line) case End => [] case Type => [VOD] case _ => [line]
    ensures target' == LastTarget(lines', LineTag)
  {
    hasVod', target', lines' := hasVod, target, lines;
    var stripped := Strip(line);
    assert forall l: string :: (lines + [l])[..|lines|] == lines;
    if StartsWith(stripped, "#EXT-X-ENDLIST") {
    } else if StartsWith(stripped, "#EXT-X-PLAYLIST-TYPE:") {
      OwnTags();
      hasVod' := true;
      lines' := lines + [VOD];
    } else {
      if StartsWith(stripped, "#EXT-X-TARGETDURATION") {
        target' := |lines|;
      }
      lines' := lines + [line];
    }
  }

  // --------------------------------------------------------------- rewrite

  /** A relative URI line: neither blank, nor a tag or comment, nor absolute. */
  predicate IsRelative(line: string) {
    var s := Strip(line);
    s != "" && !StartsWith(s, "#") && !StartsWith(s, "http")
  }

  function Prefix(assetId: string): string {
    "/api/assets/" + assetId + "/proxy/"
  }

  function Rewrite(line: string, assetId: string): string {
    if IsRelative(line) then Prefix(assetId) + Strip(line) else line
  }

  function Rewritten(lines: seq<string>, assetId: string): seq<string> {
    MapLines(lines, line => Rewrite(line, assetId))
  }

  function RewriteText(text: string, assetId: string): string {
    FinalizeText(JoinLines(Rewritten(SplitLines(text), assetId)) + "\n")
  }

  /** `rewrite_proxy_playlist`. */
  method RewriteProxyPlaylist(text: string, assetId: string) returns (out: string)
    ensures out == RewriteText(text, assetId)
  {
    var input := SplitLines(text);
    var rewritten: seq<string> := [];
    for i := 0 to |input|
      invariant rewritten == Rewritten(input[..i], assetId)
    {
      var stripped := Strip(input[i]);
      MapSnoc(input[..i], input[i], line => Rewrite(line, assetId));
      assert input[..i + 1] == input[..i] + [input[i]];
      if stripped != "" && !StartsWith(stripped, "#") && !StartsWith(stripped, "http") {
        rewritten := rewritten + [Prefix(assetId) + stripped];
      } else {
        rewritten := rewritten + [input[i]];
      }
    }
    assert input[..|input|] == input;
    out := FinalizeVodPlaylistText(JoinLines(rewritten) + "\n");
  }

  // ------------------------------------------------------ facts about lines

  lemma FirstChar(s: string, p: string)
    requires p != "" && StartsWith(s, p)
    ensures s != "" && s[0] == p[0]
  {
    assert s[..|p|][0] == s[0];
  }

  /** What is not a tag or comment has no tag. */
  lemma OnlyTagsAreTagged(line: string)
    requires Strip(line) == "" || Strip(line)[0] != '#'
    ensures LineTag(line) == Plain
  {
    var s := Strip(line);
    if StartsWith(s, "#EXT-X-ENDLIST") { FirstChar(s, "#EXT-X-ENDLIST"); assert false; }
    if StartsWith(s, "#EXT-X-PLAYLIST-TYPE:") { FirstChar(s, "#EXT-X-PLAYLIST-TYPE:"); assert false; }
    if StartsWith(s, "#EXT-X-TARGETDURATION") { FirstChar(s, "#EXT-X-TARGETDURATION"); assert false; }
  }

  lemma RelativeFirst(line: string)
    requires IsRelative(line)
    ensures Strip(line) != "" && Strip(line)[0] != '#'
  {
    var s := Strip(line);
    assert s[..1] == [s[0]];
  }

  lemma RewrittenFirst(line: string, assetId: string)
    requires IsRelative(line)
    ensures var r := Rewrite(line, assetId); r != "" && r[0] == '/' && Strip(r) != "" && Strip(r)[0] == '/'
  {
    var r := Rewrite(line, assetId);
    assert r[0] == '/' && r[..1] == "/";
    StripPrefix(r, "/");
    FirstChar(Strip(r), "/");
  }

  lemma RewriteKeepsTag(line: string, assetId: string)
    ensures LineTag(Rewrite(line, assetId)) == LineTag(line)
  {
    if IsRelative(line) {
      RelativeFirst(line);
      OnlyTagsAreTagged(line);
      RewrittenFirst(line, assetId);
      OnlyTagsAreTagged(Rewrite(line, assetId));
    }
  }

  lemma RewriteRespects(assetId: string)
    ensures var f := line => Rewrite(line, assetId);
            Respects(f, LineTag) && f(VOD) == VOD && f(ENDLIST) == ENDLIST
  {
    forall line ensures LineTag(Rewrite(line, assetId)) == LineTag(line) { RewriteKeepsTag(line, assetId); }
    StripKeeps(VOD);
    StripKeeps(ENDLIST);
    assert VOD[..1] == "#" && ENDLIST[..1] == "#";
  }

  lemma NoBreakAppend(a: string, b: string)
    requires NoBreak(a) && NoBreak(b)
    ensures NoBreak(a + b)
  {
  }

  lemma RewriteOk(line: string, assetId: string)
    requires NoBreak(line) && NoBreak(assetId)
    ensures NoBreak(Rewrite(line, assetId))
  {
    NoBreakAppend("/api/assets/", assetId);
    NoBreakAppend("/api/assets/" + assetId, "/proxy/");
    NoBreakAppend(Prefix(assetId), Strip(line));
  }

  lemma RewrittenOk(lines: seq<string>, assetId: string)
    requires LinesOk(lines) && NoBreak(assetId)
    ensures LinesOk(Rewritten(lines, assetId))
  {
    forall i | 0 <= i < |lines| ensures NoBreak(Rewritten(lines, assetId)[i]) { RewriteOk(lines[i], assetId); }
  }

  lemma FinalizedOk(lines: seq<string>)
    requires LinesOk(lines)
    ensures LinesOk(Finalized(lines))
  {
    OwnTags();
    var out := Finalized(lines);
    CloseAll(lines, LineTag, VOD, ENDLIST, NoBreak);
    assert forall i :: 0 <= i < |out| ==> out[i] in out;
  }

  // ------------------------------------------------------ laws on the text

  lemma FinalizedSplits(text: string)
    ensures SplitLines(FinalizeText(text)) == Finalized(SplitLines(text))
  {
    FinalizedOk(SplitLines(text));
    SplitWritten(Finalized(SplitLines(text)));
  }

  /** Finalising twice is finalising once. */
  lemma FinalizeTwice(text: string)
    ensures FinalizeText(FinalizeText(text)) == FinalizeText(text)
  {
    FinalizedSplits(text);
    OwnTags();
    CloseTwice(SplitLines(text), LineTag, VOD, ENDLIST);
  }

  /** What the API serves, line by line, for a playlist that is not empty. */
  lemma ServedLines(text: string, assetId: string)
    requires text != "" && NoBreak(assetId)
    ensures RewriteText(text, assetId) == JoinLines(Finalized(Rewritten(SplitLines(text), assetId))) + "\n"
    ensures SplitLines(RewriteText(text, assetId)) == Rewritten(Finalized(SplitLines(text)), assetId)
  {
    var lines := SplitLines(text);
    var r := Rewritten(lines, assetId);
    RewrittenOk(lines, assetId);
    SplitWritten(r);
    FinalizedSplits(JoinLines(r) + "\n");
    RewriteRespects(assetId);
    CloseMap(lines, LineTag, VOD, ENDLIST, line => Rewrite(line, assetId));
  }

  lemma FinalizedRewritten(lines: seq<string>, assetId: string)
    ensures Finalized(Rewritten(Finalized(lines), assetId)) == Finalized(Rewritten(lines, assetId))
  {
    RewriteRespects(assetId);
    OwnTags();
    CloseMap(lines, LineTag, VOD, ENDLIST, line => Rewrite(line, assetId));
    CloseTwice(Rewritten(lines, assetId), LineTag, VOD, ENDLIST);
  }

  /** A finalised file is served like the file it came from, exactly when that
      file is not empty. */
  lemma RewriteAfterFinalize(text: string, assetId: string)
    requires NoBreak(assetId)
    ensures RewriteText(FinalizeText(text), assetId) == RewriteText(text, assetId) <==> text != ""
  {
    FinalizedSplits(text);
    if text != "" {
      ServedLines(text, assetId);
      ServedLines(FinalizeText(text), assetId);
      FinalizedRewritten(SplitLines(text), assetId);
    } else {
      EmptyPlaylist(assetId);
    }
  }

  /** An empty file gains a blank line when rewritten directly, none when it was
      finalised first. */
  lemma EmptyPlaylist(assetId: string)
    requires NoBreak(assetId)
    ensures RewriteText(FinalizeText(""), assetId) != RewriteText("", assetId)
  {
    OwnTags();
    var none: seq<string> := [];
    assert |Finalized(none)| == 2;
    FinalizedSplits("");
    ServedLines(FinalizeText(""), assetId);
    FinalizedRewritten(none, assetId);
    CloseTwice(none, LineTag, VOD, ENDLIST);
    assert |SplitLines(RewriteText(FinalizeText(""), assetId))| == 2;
    assert Rewritten(none, assetId) == none;
    SplitWritten(none);
    BlankStays();
    FinalizedSplits("\n");
    assert JoinLines(none) + "\n" == "\n";
    assert |SplitLines(RewriteText("", assetId))| == 3;
  }

  lemma BlankStays()
    ensures |Finalized([""])| == 3
  {
    OnlyTagsAreTagged("");
    assert Body([""][..0], LineTag, VOD) == [];
    assert !Has([""], LineTag, Type);
  }

  // ------------------------------------------------- what the output keeps

  function RelativeUri(line: string): seq<string> {
    if IsRelative(line) then [Strip(line)] else []
  }

  /** A served line's URI, read back without the API's prefix. */
  function ServedUri(line: string, assetId: string): seq<string> {
    if StartsWith(line, Prefix(assetId)) then [line[|Prefix(assetId)|..]] else []
  }

  function OtherLine(line: string): seq<string> {
    if LineTag(line) in {End, Type} then [] else [line]
  }

  lemma ServedUriBack(line: string, assetId: string)
    ensures ServedUri(Rewrite(line, assetId), assetId) == RelativeUri(line)
  {
    var p := Prefix(assetId);
    if IsRelative(line) {
      assert (p + Strip(line))[..|p|] == p;
    } else if StartsWith(line, p) {
      FirstChar(line, p);
      assert p[0] == '/' && line[..1] == "/";
      StripPrefix(line, "/");
      FirstChar(Strip(line), "/");
      SlashIsRelative(line);
      assert false;
    }
  }

  lemma SlashIsRelative(line: string)
    requires Strip(line) != "" && Strip(line)[0] == '/'
    ensures IsRelative(line)
  {
    var s := Strip(line);
    if StartsWith(s, "#") { FirstChar(s, "#"); assert false; }
    if StartsWith(s, "http") { FirstChar(s, "http"); assert false; }
  }

  lemma TaggedNotRelative(line: string)
    requires LineTag(line) in {End, Type}
    ensures RelativeUri(line) == []
  {
    if IsRelative(line) {
      RelativeFirst(line);
      OnlyTagsAreTagged(line);
      assert false;
    }
  }

  /** The stored file after finalising: a type, all types VOD, one ENDLIST, at the
      end; every other line kept, in order. */
  lemma FinalizedPlaylist(text: string)
    ensures var out := SplitLines(FinalizeText(text));
      && out != [] && out[|out| - 1] == ENDLIST
      && Settled(out[..|out| - 1], LineTag, VOD) && Has(out, LineTag, Type)
      && Select(out, OtherLine) == Select(SplitLines(text), OtherLine)
  {
    var lines := SplitLines(text);
    FinalizedSplits(text);
    OwnTags();
    FrontSettled(lines, LineTag, VOD);
    var front := Front(lines, LineTag, VOD);
    HasSnoc(front, ENDLIST, LineTag, Type);
    assert Finalized(lines)[..|front|] == front;
    SelectClose(lines, LineTag, VOD, ENDLIST, OtherLine);
  }

  /** A kept line, as it is served. */
  function OtherServed(line: string, assetId: string): seq<string> {
    if LineTag(line) in {End, Type} then [] else [Rewrite(line, assetId)]
  }

  lemma OthersKept(lines: seq<string>, assetId: string)
    ensures Select(Rewritten(Finalized(lines), assetId), OtherLine) ==
            Select(lines, line => OtherServed(line, assetId))
  {
    var served := line => OtherServed(line, assetId);
    forall line | line in Finalized(lines) ensures OtherLine(Rewrite(line, assetId)) == served(line) {
      RewriteKeepsTag(line, assetId);
    }
    SelectMap(Finalized(lines), line => Rewrite(line, assetId), served, OtherLine);
    OwnTags();
    SelectClose(lines, LineTag, VOD, ENDLIST, served);
  }

  lemma ServedOthers(text: string, assetId: string)
    requires text != "" && NoBreak(assetId)
    ensures Select(SplitLines(RewriteText(text, assetId)), OtherLine) ==
            Select(SplitLines(text), line => OtherServed(line, assetId))
  {
    ServedLines(text, assetId);
    OthersKept(SplitLines(text), assetId);
  }

  /** What the API serves is such a playlist too: the stored lines, their relative
      URIs rewritten and nothing else, in order, so that every relative URI can be
      read back. */
  lemma ServedPlaylist(text: string, assetId: string)
    requires text != "" && NoBreak(assetId)
    ensures var out := SplitLines(RewriteText(text, assetId));
      && out != [] && out[|out| - 1] == ENDLIST
      && Settled(out[..|out| - 1], LineTag, VOD) && Has(out, LineTag, Type)
      && Select(out, line => ServedUri(line, assetId)) == Select(SplitLines(text), RelativeUri)
      && Select(out, OtherLine) == Select(SplitLines(text), line => OtherServed(line, assetId))
  {
    var lines := SplitLines(text);
    ServedLines(text, assetId);
    ServedOthers(text, assetId);
    FinalizedPlaylist(JoinLines(Rewritten(lines, assetId)) + "\n");
    OwnTags();
    forall line | line in lines && LineTag(line) in {End, Type} ensures RelativeUri(line) == [] { TaggedNotRelative(line); }
    TaggedNotRelative(VOD);
    TaggedNotRelative(ENDLIST);
    SelectClose(lines, LineTag, VOD, ENDLIST, RelativeUri);
    forall line | line in Finalized(lines) ensures ServedUri(Rewrite(line, assetId), assetId) == RelativeUri(line) {
      ServedUriBack(line, assetId);
    }
    SelectMap(Finalized(lines), line => Rewrite(line, assetId), RelativeUri, line => ServedUri(line, assetId));
  }
}
