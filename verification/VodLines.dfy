/** Forcing a list of tagged lines to VOD, whatever the lines are: what is kept,
    where the type line goes, and that it commutes with any map that respects the
    tags.  `Playlist` instantiates it with the lines of an HLS playlist. */
module VodLines {

  datatype Tag = End | Type | Target | Plain

  predicate Has<L>(lines: seq<L>, tag: L -> Tag, t: Tag) {
    exists i :: 0 <= i < |lines| && tag(lines[i]) == t
  }

  lemma HasSnoc<L>(lines: seq<L>, last: L, tag: L -> Tag, t: Tag)
    ensures Has(lines + [last], tag, t) <==> Has(lines, tag, t) || tag(last) == t
  {
    var all := lines + [last];
    assert all[|lines|] == last;
    if Has(lines, tag, t) {
      var i :| 0 <= i < |lines| && tag(lines[i]) == t;
      assert tag(all[i]) == t;
    }
    if Has(all, tag, t) {
      var i :| 0 <= i < |all| && tag(all[i]) == t;
      assert i < |lines| ==> all[i] == lines[i];
    }
  }

  /** No end line; every type line made `vod`. */
  function Body<L>(lines: seq<L>, tag: L -> Tag, vod: L): (out: seq<L>)
    ensures |out| <= |lines|
  {
    if lines == [] then []
    else
      var init, last := Body(lines[..|lines| - 1], tag, vod), lines[|lines| - 1];
      match tag(last)
      case End => init
      case Type => init + [vod]
      case _ => init + [last]
  }

  lemma BodySnoc<L>(lines: seq<L>, last: L, tag: L -> Tag, vod: L)
    ensures Body(lines + [last], tag, vod) == Body(lines, tag, vod) +
      match tag(last)
      case End => []
      case Type => [vod]
      case _ => [last]
  {
    assert (lines + [last])[..|lines|] == lines;
  }

  function LastTarget<L>(body: seq<L>, tag: L -> Tag): (i: int)
    ensures -1 <= i < |body|
    ensures i >= 0 ==> tag(body[i]) == Target
    ensures forall j :: i < j < |body| ==> tag(body[j]) != Target
  {
    if body == [] then -1
    else if tag(body[|body| - 1]) == Target then |body| - 1
    else
      var i := LastTarget(body[..|body| - 1], tag);
      assert forall j :: 0 <= j < |body| - 1 ==> body[j] == body[..|body| - 1][j];
      i
  }

  /** After the last target line, else after the first line. */
  function InsertAt<L>(body: seq<L>, tag: L -> Tag): (n: nat)
    ensures n <= |body|
  {
    var target := LastTarget(body, tag);
    if target >= 0 then target + 1 else if |body| < 1 then |body| else 1
  }

  function Insert<L>(body: seq<L>, at: nat, line: L): seq<L>
    requires at <= |body|
  {
    body[..at] + [line] + body[at..]
  }

  /** Everything before the closing end line. */
  function Front<L>(lines: seq<L>, tag: L -> Tag, vod: L): seq<L> {
    var body := Body(lines, tag, vod);
    if Has(lines, tag, Type) then body else Insert(body, InsertAt(body, tag), vod)
  }

  function Close<L>(lines: seq<L>, tag: L -> Tag, vod: L, end: L): seq<L> {
    Front(lines, tag, vod) + [end]
  }

  /** No end line, and no type line but `vod`. */
  predicate Settled<L(==)>(body: seq<L>, tag: L -> Tag, vod: L) {
    forall i :: 0 <= i < |body| ==> tag(body[i]) != End && (tag(body[i]) == Type ==> body[i] == vod)
  }

  lemma {:induction false} BodySettled<L>(lines: seq<L>, tag: L -> Tag, vod: L)
    requires tag(vod) == Type
    ensures Settled(Body(lines, tag, vod), tag, vod)
    ensures Has(Body(lines, tag, vod), tag, Type) <==> Has(lines, tag, Type)
  {
    if lines != [] {
      var init, last := lines[..|lines| - 1], lines[|lines| - 1];
      assert lines == init + [last];
      BodySettled(init, tag, vod);
      BodySnoc(init, last, tag, vod);
      HasSnoc(init, last, tag, Type);
      HasSnoc(Body(init, tag, vod), vod, tag, Type);
      HasSnoc(Body(init, tag, vod), last, tag, Type);
    }
  }

  lemma {:induction false} BodyOfSettled<L>(body: seq<L>, tag: L -> Tag, vod: L)
    requires Settled(body, tag, vod)
    ensures Body(body, tag, vod) == body
  {
    if body != [] {
      var init, last := body[..|body| - 1], body[|body| - 1];
      assert body == init + [last];
      BodyOfSettled(init, tag, vod);
      BodySnoc(init, last, tag, vod);
    }
  }

  lemma FrontSettled<L>(lines: seq<L>, tag: L -> Tag, vod: L)
    requires tag(vod) == Type
    ensures Settled(Front(lines, tag, vod), tag, vod) && Has(Front(lines, tag, vod), tag, Type)
  {
    BodySettled(lines, tag, vod);
    var body := Body(lines, tag, vod);
    var at := InsertAt(body, tag);
    var front := Insert(body, at, vod);
    assert front[at] == vod;
    forall i | 0 <= i < |front| ensures tag(front[i]) != End && (tag(front[i]) == Type ==> front[i] == vod) {
      assert front[i] == if i < at then body[i] else if i == at then vod else body[i - 1];
    }
  }

  /** Closing a closed list changes nothing. */
  lemma CloseTwice<L>(lines: seq<L>, tag: L -> Tag, vod: L, end: L)
    requires tag(vod) == Type && tag(end) == End
    ensures Close(Close(lines, tag, vod, end), tag, vod, end) == Close(lines, tag, vod, end)
  {
    var front := Front(lines, tag, vod);
    FrontSettled(lines, tag, vod);
    BodyOfSettled(front, tag, vod);
    BodySnoc(front, end, tag, vod);
    HasSnoc(front, end, tag, Type);
  }

  /** What holds of the lines given, `vod` and `end` holds of the lines written. */
  lemma CloseAll<L>(lines: seq<L>, tag: L -> Tag, vod: L, end: L, p: L -> bool)
    requires forall l :: l in lines ==> p(l)
    requires p(vod) && p(end)
    ensures forall l :: l in Close(lines, tag, vod, end) ==> p(l)
  {
    BodyAll(lines, tag, vod, p);
    var body := Body(lines, tag, vod);
    var at := InsertAt(body, tag);
    assert forall l :: l in Insert(body, at, vod) ==> l in body || l == vod;
  }

  lemma {:induction false} BodyAll<L>(lines: seq<L>, tag: L -> Tag, vod: L, p: L -> bool)
    requires forall l :: l in lines ==> p(l)
    requires p(vod)
    ensures forall l :: l in Body(lines, tag, vod) ==> p(l)
  {
    if lines != [] {
      var init, last := lines[..|lines| - 1], lines[|lines| - 1];
      assert last in lines;
      BodyAll(init, tag, vod, p);
    }
  }

  // ---------------------------------------------------------------- mapping

  function MapLines<L>(lines: seq<L>, f: L -> L): seq<L> {
    seq(|lines|, i requires 0 <= i < |lines| => f(lines[i]))
  }

  ghost predicate Respects<L(!new)>(f: L -> L, tag: L -> Tag) {
    forall l :: tag(f(l)) == tag(l)
  }

  lemma MapSnoc<L>(lines: seq<L>, last: L, f: L -> L)
    ensures MapLines(lines + [last], f) == MapLines(lines, f) + [f(last)]
  {
  }

  lemma {:induction false} BodyMap<L(!new)>(lines: seq<L>, tag: L -> Tag, vod: L, f: L -> L)
    requires Respects(f, tag) && f(vod) == vod
    ensures Body(MapLines(lines, f), tag, vod) == MapLines(Body(lines, tag, vod), f)
    ensures Has(MapLines(lines, f), tag, Type) <==> Has(lines, tag, Type)
  {
    if lines != [] {
      var init, last := lines[..|lines| - 1], lines[|lines| - 1];
      assert lines == init + [last];
      BodyMap(init, tag, vod, f);
      MapSnoc(init, last, f);
      BodySnoc(init, last, tag, vod);
      BodySnoc(MapLines(init, f), f(last), tag, vod);
      MapSnoc(Body(init, tag, vod), last, f);
      MapSnoc(Body(init, tag, vod), vod, f);
      HasSnoc(init, last, tag, Type);
      HasSnoc(MapLines(init, f), f(last), tag, Type);
    }
  }

  lemma {:induction false} LastTargetMap<L(!new)>(body: seq<L>, tag: L -> Tag, f: L -> L)
    requires Respects(f, tag)
    ensures LastTarget(MapLines(body, f), tag) == LastTarget(body, tag)
  {
    if body != [] {
      LastTargetMap(body[..|body| - 1], tag, f);
      var r := MapLines(body, f);
      assert r[..|r| - 1] == MapLines(body[..|body| - 1], f);
    }
  }

  lemma MapInsert<L>(body: seq<L>, at: nat, line: L, f: L -> L)
    requires at <= |body| && f(line) == line
    ensures MapLines(Insert(body, at, line), f) == Insert(MapLines(body, f), at, line)
  {
  }

  lemma FrontMap<L(!new)>(lines: seq<L>, tag: L -> Tag, vod: L, f: L -> L)
    requires Respects(f, tag) && f(vod) == vod
    ensures Front(MapLines(lines, f), tag, vod) == MapLines(Front(lines, tag, vod), f)
  {
    BodyMap(lines, tag, vod, f);
    if !Has(lines, tag, Type) {
      InsertMap(Body(lines, tag, vod), tag, vod, f);
    }
  }

  lemma InsertMap<L(!new)>(body: seq<L>, tag: L -> Tag, vod: L, f: L -> L)
    requires Respects(f, tag) && f(vod) == vod
    ensures var r := MapLines(body, f);
      Insert(r, InsertAt(r, tag), vod) == MapLines(Insert(body, InsertAt(body, tag), vod), f)
  {
    LastTargetMap(body, tag, f);
    MapInsert(body, InsertAt(body, tag), vod, f);
  }

  /** Mapping line by line and closing commute. */
  lemma CloseMap<L(!new)>(lines: seq<L>, tag: L -> Tag, vod: L, end: L, f: L -> L)
    requires Respects(f, tag) && f(vod) == vod && f(end) == end
    ensures Close(MapLines(lines, f), tag, vod, end) == MapLines(Close(lines, tag, vod, end), f)
  {
    FrontMap(lines, tag, vod, f);
    MapSnoc(Front(lines, tag, vod), end, f);
  }

  // ------------------------------------------------------------- selections

  /** The lines `pick` selects, read by it, in order. */
  function Select<L, R>(lines: seq<L>, pick: L -> seq<R>): seq<R> {
    if lines == [] then []
    else Select(lines[..|lines| - 1], pick) + pick(lines[|lines| - 1])
  }

  lemma SelectSnoc<L, R>(lines: seq<L>, last: L, pick: L -> seq<R>)
    ensures Select(lines + [last], pick) == Select(lines, pick) + pick(last)
  {
    assert (lines + [last])[..|lines|] == lines;
  }

  lemma SnocOf<T>(a: seq<T>, b: seq<T>)
    requires b != []
    ensures (a + b[..|b| - 1]) + [b[|b| - 1]] == a + b
  {
  }

  lemma Assoc<T>(a: seq<T>, b: seq<T>, c: seq<T>)
    ensures (a + b) + c == a + (b + c)
  {
  }

  lemma {:induction false} SelectAppend<L, R>(a: seq<L>, b: seq<L>, pick: L -> seq<R>)
    ensures Select(a + b, pick) == Select(a, pick) + Select(b, pick)
  {
    if b == [] {
      assert a + b == a;
    } else {
      var init, last := b[..|b| - 1], b[|b| - 1];
      SelectAppend(a, init, pick);
      SelectSnoc(a + init, last, pick);
      SnocOf(a, b);
      Assoc(Select(a, pick), Select(init, pick), pick(last));
    }
  }

  lemma {:induction false} SelectBody<L, R>(lines: seq<L>, tag: L -> Tag, vod: L, pick: L -> seq<R>)
    requires forall l :: l in lines && tag(l) in {End, Type} ==> pick(l) == []
    requires pick(vod) == []
    ensures Select(Body(lines, tag, vod), pick) == Select(lines, pick)
  {
    if lines != [] {
      var init, last := lines[..|lines| - 1], lines[|lines| - 1];
      assert lines == init + [last];
      assert last in lines;
      SelectBody(init, tag, vod, pick);
      BodySnoc(init, last, tag, vod);
      SelectSnoc(Body(init, tag, vod), vod, pick);
      SelectSnoc(Body(init, tag, vod), last, pick);
    }
  }

  lemma SelectBetween<L, R>(before: seq<L>, line: L, after: seq<L>, pick: L -> seq<R>)
    requires pick(line) == []
    ensures Select((before + [line]) + after, pick) == Select(before + after, pick)
  {
    SelectAppend(before + [line], after, pick);
    SelectSnoc(before, line, pick);
    SelectAppend(before, after, pick);
  }

  lemma Halves<T>(s: seq<T>, at: nat)
    requires at <= |s|
    ensures s[..at] + s[at..] == s
  {
  }

  lemma SelectInsert<L, R>(body: seq<L>, at: nat, line: L, pick: L -> seq<R>)
    requires at <= |body| && pick(line) == []
    ensures Select(Insert(body, at, line), pick) == Select(body, pick)
  {
    Halves(body, at);
    SelectBetween(body[..at], line, body[at..], pick);
  }

  /** Closing keeps whatever is read from the other lines, in order. */
  lemma SelectClose<L, R>(lines: seq<L>, tag: L -> Tag, vod: L, end: L, pick: L -> seq<R>)
    requires forall l :: l in lines && tag(l) in {End, Type} ==> pick(l) == []
    requires pick(vod) == [] && pick(end) == []
    ensures Select(Close(lines, tag, vod, end), pick) == Select(lines, pick)
  {
    SelectBody(lines, tag, vod, pick);
    var body := Body(lines, tag, vod);
    SelectInsert(body, InsertAt(body, tag), vod, pick);
    SelectSnoc(Front(lines, tag, vod), end, pick);
  }

  lemma {:induction false} SelectMap<L, R>(lines: seq<L>, f: L -> L, before: L -> seq<R>, after: L -> seq<R>)
    requires forall l :: l in lines ==> after(f(l)) == before(l)
    ensures Select(MapLines(lines, f), after) == Select(lines, before)
  {
    if lines != [] {
      var init, last := lines[..|lines| - 1], lines[|lines| - 1];
      assert lines == init + [last];
      SelectMap(init, f, before, after);
      MapSnoc(init, last, f);
      SelectSnoc(MapLines(init, f), f(last), after);
      assert last in lines;
    }
  }
}
