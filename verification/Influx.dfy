/** The line protocol rows TSDuck posts: escaping, one line, a body.  Reading a
    number is a parameter, as Python's `float` and `int` read more than decimals. */
module Influx {
  import opened Common

  /** What `float` makes of a text; infinities and NaN cannot become integers. */
  datatype Num = NotNumeric | Finite(x: real) | NonFinite

  datatype Numbers = Numbers(toFloat: string -> Num, toInt: string -> Option<int>)

  /** `int(x)`: towards zero. */
  function Truncate(x: real): int {
    if x >= 0.0 then x.Floor else -((-x).Floor)
  }

  // ---------------------------------------------------------------- escaping

  function Unescape(s: string): string {
    if s == "" then ""
    else if s[0] == '\\' && |s| > 1 then [s[1]] + Unescape(s[2..])
    else [s[0]] + Unescape(s[1..])
  }

  lemma UnescapeFrom(s: string, i: nat)
    requires i < |s|
    ensures Unescape(s[i..]) ==
            if s[i] == '\\' && i + 1 < |s| then [s[i + 1]] + Unescape(s[i + 2..]) else [s[i]] + Unescape(s[i + 1..])
  {
    if s[i] == '\\' && i + 1 < |s| {
      assert s[i..][2..] == s[i + 2..];
    } else {
      assert s[i..][1..] == s[i + 1..];
    }
  }

  /** Length of the piece at `i`: a backslash takes the next character with it. */
  function Piece(s: string, i: nat): (n: nat)
    requires i < |s|
    ensures n > 0 && i + n <= |s|
  {
    if s[i] == '\\' && i + 1 < |s| then 2 else 1
  }

  lemma UnescapeStep(out: string, s: string, i: nat)
    requires i < |s|
    ensures var n := Piece(s, i); out + Unescape(s[i..]) == out + [s[i + n - 1]] + Unescape(s[i + n..])
  {
    UnescapeFrom(s, i);
  }

  /** `_unescape_influx_tag`. */
  method UnescapeInfluxTag(value: string) returns (out: string)
    ensures out == Unescape(value)
  {
    out := "";
    var i := 0;
    assert value[0..] == value;
    while i < |value|
      invariant i <= |value| && out + Unescape(value[i..]) == Unescape(value)
    {
      UnescapeStep(out, value, i);
      if value[i] == '\\' && i + 1 < |value| {
        out := out + [value[i + 1]];
        i := i + 2;
      } else {
        out := out + [value[i]];
        i := i + 1;
      }
    }
  }

  predicate Special(c: char) { c == ',' || c == '=' || c == ' ' }

  /** A tag value as the line protocol writes it; `slashes`: the writer escapes
      backslashes too. */
  function Escape(s: string, slashes: bool): string {
    if s == "" then ""
    else if Special(s[0]) || (slashes && s[0] == '\\') then ['\\', s[0]] + Escape(s[1..], slashes)
    else [s[0]] + Escape(s[1..], slashes)
  }

  lemma UnescapePair(c: char, rest: string)
    ensures Unescape(['\\', c] + rest) == [c] + Unescape(rest)
  {
    assert (['\\', c] + rest)[2..] == rest;
  }

  lemma UnescapeOne(c: char, rest: string)
    requires c != '\\' || rest == ""
    ensures Unescape([c] + rest) == [c] + Unescape(rest)
  {
    assert ([c] + rest)[1..] == rest;
  }

  /** Unescaping undoes escaping, for every string. */
  lemma {:induction false} EscapeRoundTrip(s: string)
    ensures Unescape(Escape(s, true)) == s
  {
    if s != "" {
      EscapeRoundTrip(s[1..]);
      var rest := Escape(s[1..], true);
      if Special(s[0]) || s[0] == '\\' {
        UnescapePair(s[0], rest);
      } else {
        UnescapeOne(s[0], rest);
      }
    }
  }

  /** Every backslash is the last character or stands before a separator. */
  predicate SlashSafe(s: string) {
    forall i :: 0 <= i < |s| - 1 && s[i] == '\\' ==> Special(s[i + 1])
  }

  /** A backslash the writer leaves alone swallows what follows, unless that is a
      separator, which brings a backslash of its own. */
  lemma EscapeSlash(s: string)
    requires |s| > 1 && s[0] == '\\'
    ensures Unescape(Escape(s, false)) ==
            (if Special(s[1]) then ['\\', s[1]] else [s[1]]) + Unescape(Escape(s[2..], false))
  {
    SlashThen(s);
    UnescapeSlashThen(s[1], Escape(s[2..], false));
  }

  lemma SlashThen(s: string)
    requires |s| > 1 && s[0] == '\\'
    ensures Escape(s, false) ==
            ['\\'] + ((if Special(s[1]) then ['\\', s[1]] else [s[1]]) + Escape(s[2..], false))
  {
    EscapeSecond(s);
  }

  lemma UnescapeSlashThen(c: char, rest: string)
    ensures Unescape(['\\'] + ((if Special(c) then ['\\', c] else [c]) + rest)) ==
            (if Special(c) then ['\\', c] else [c]) + Unescape(rest)
  {
    if Special(c) {
      SlashPair(c, rest);
    } else {
      assert ['\\'] + ([c] + rest) == ['\\', c] + rest;
      UnescapePair(c, rest);
    }
  }

  lemma EscapeSecond(s: string)
    requires |s| > 1
    ensures Escape(s[1..], false) ==
            (if Special(s[1]) then ['\\', s[1]] else [s[1]]) + Escape(s[2..], false)
  {
    assert s[1..][0] == s[1] && s[1..][1..] == s[2..];
  }

  lemma SlashPair(c: char, rest: string)
    requires Special(c)
    ensures Unescape(['\\'] + (['\\', c] + rest)) == ['\\', c] + Unescape(rest)
  {
    assert ['\\'] + (['\\', c] + rest) == ['\\', '\\'] + ([c] + rest);
    UnescapePair('\\', [c] + rest);
    UnescapeOne(c, rest);
    assert ['\\'] + ([c] + Unescape(rest)) == ['\\', c] + Unescape(rest);
  }

  lemma EscapeStep(s: string)
    requires s != "" && (s[0] != '\\' || |s| == 1)
    ensures Unescape(Escape(s, false)) == [s[0]] + Unescape(Escape(s[1..], false))
  {
    if Special(s[0]) {
      UnescapePair(s[0], Escape(s[1..], false));
    } else {
      UnescapeOne(s[0], Escape(s[1..], false));
    }
  }

  lemma {:induction false} EscapeBound(s: string)
    ensures |Unescape(Escape(s, false))| <= |s|
    decreases |s|
  {
    if s != "" {
      if s[0] == '\\' && |s| > 1 {
        EscapeSlash(s);
        EscapeBound(s[2..]);
      } else {
        EscapeStep(s);
        EscapeBound(s[1..]);
      }
    }
  }

  /** With a writer that leaves backslashes alone, exactly the values whose
      backslashes are safe come back. */
  lemma {:induction false} PlainEscapeRoundTrip(s: string)
    ensures Unescape(Escape(s, false)) == s <==> SlashSafe(s)
    decreases |s|
  {
    if s != "" {
      if s[0] == '\\' && |s| > 1 {
        EscapeSlash(s);
        PlainEscapeRoundTrip(s[2..]);
        EscapeBound(s[2..]);
        assert s == ['\\', s[1]] + s[2..];
        if Special(s[1]) {
          SafeAfter(s, 2);
        }
      } else {
        EscapeStep(s);
        PlainEscapeRoundTrip(s[1..]);
        assert s == [s[0]] + s[1..];
        SafeAfter(s, 1);
      }
    }
  }

  lemma SafeAfter(s: string, n: nat)
    requires n <= |s| && forall i :: 0 <= i < n && i < |s| - 1 && s[i] == '\\' ==> Special(s[i + 1])
    ensures SlashSafe(s) <==> SlashSafe(s[n..])
  {
    var t := s[n..];
    if SlashSafe(t) {
      forall i | 0 <= i < |s| - 1 && s[i] == '\\' ensures Special(s[i + 1]) {
        if i >= n {
          assert t[i - n] == s[i];
        }
      }
    }
  }
}
