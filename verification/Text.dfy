/** Python's line and field splitting on strings, and the laws that undo it. */
module Text {

  /** The characters `str.splitlines` ends a line at. */
  predicate IsBreak(c: char) {
    c == '\n' || c == '\r' || c == '\U{000B}' || c == '\U{000C}'
    || c == '\U{001C}' || c == '\U{001D}' || c == '\U{001E}'
    || c == '\U{0085}' || c == '\U{2028}' || c == '\U{2029}'
  }

  /** The characters `str.strip` removes. */
  predicate IsSpace(c: char) {
    IsBreak(c) || c == ' ' || c == '\t' || c == '\U{001F}' || c == '\U{00A0}' || c == '\U{1680}'
    || '\U{2000}' <= c <= '\U{200A}' || c == '\U{202F}' || c == '\U{205F}' || c == '\U{3000}'
  }

  predicate NoBreak(s: string) {
    forall i :: 0 <= i < |s| ==> !IsBreak(s[i])
  }

  predicate NoSpace(s: string) {
    forall i :: 0 <= i < |s| ==> !IsSpace(s[i])
  }

  predicate StartsWith(s: string, p: string) {
    |p| <= |s| && s[..|p|] == p
  }

  function LStrip(s: string): (r: string)
    ensures |r| <= |s|
    ensures r != "" ==> !IsSpace(r[0])
    ensures NoBreak(s) ==> NoBreak(r)
    ensures s != "" && !IsSpace(s[0]) ==> r == s
  {
    if s != "" && IsSpace(s[0]) then LStrip(s[1..]) else s
  }

  function RStrip(s: string): (r: string)
    ensures |r| <= |s| && r == s[..|r|]
    ensures r != "" ==> !IsSpace(r[|r| - 1])
    ensures s != "" && !IsSpace(s[|s| - 1]) ==> r == s
    ensures s != "" && !IsSpace(s[0]) ==> r != ""
  {
    if s != "" && IsSpace(s[|s| - 1]) then RStrip(s[..|s| - 1]) else s
  }

  function Strip(s: string): (r: string)
    ensures NoBreak(s) ==> NoBreak(r)
    ensures r != "" ==> !IsSpace(r[0]) && !IsSpace(r[|r| - 1])
  {
    RStrip(LStrip(s))
  }

  lemma StripKeeps(s: string)
    requires s != "" && !IsSpace(s[0]) && !IsSpace(s[|s| - 1])
    ensures Strip(s) == s
  {
  }

  /** A prefix without white space survives `strip`. */
  lemma {:induction false} StripPrefix(s: string, p: string)
    requires StartsWith(s, p) && p != "" && NoSpace(p)
    ensures StartsWith(Strip(s), p)
  {
    assert s[0] == p[0];
    assert LStrip(s) == s;
    RStripPrefix(s, p);
  }

  lemma {:induction false} RStripPrefix(s: string, p: string)
    requires StartsWith(s, p) && p != "" && NoSpace(p)
    ensures StartsWith(RStrip(s), p)
  {
    if IsSpace(s[|s| - 1]) {
      assert |s| > |p| by { assert s[|p| - 1] == p[|p| - 1]; }
      assert s[..|s| - 1][..|p|] == p;
      RStripPrefix(s[..|s| - 1], p);
    }
  }

  // ----------------------------------------------------------------- lines

  /** Length of the first line. */
  function LineEnd(s: string): (n: nat)
    ensures n <= |s| && NoBreak(s[..n]) && (n < |s| ==> IsBreak(s[n]))
  {
    if s == "" || IsBreak(s[0]) then 0 else 1 + LineEnd(s[1..])
  }

  /** `str.splitlines()`; a carriage return and a line feed are one break. */
  function SplitLines(s: string): (lines: seq<string>)
    ensures lines == [] <==> s == ""
    ensures forall i :: 0 <= i < |lines| ==> NoBreak(lines[i])
  {
    if s == "" then []
    else
      var n := LineEnd(s);
      if n == |s| then [s]
      else if s[n] == '\r' && n + 1 < |s| && s[n + 1] == '\n' then [s[..n]] + SplitLines(s[n + 2..])
      else [s[..n]] + SplitLines(s[n + 1..])
  }

  predicate LinesOk(lines: seq<string>) {
    forall i :: 0 <= i < |lines| ==> NoBreak(lines[i])
  }

  /** `"\n".join(lines)`. */
  function JoinLines(lines: seq<string>): string {
    if lines == [] then ""
    else if |lines| == 1 then lines[0]
    else lines[0] + "\n" + JoinLines(lines[1..])
  }

  lemma {:induction false} LineEndAt(line: string, rest: string)
    requires NoBreak(line)
    ensures LineEnd(line + "\n" + rest) == |line|
  {
    var s := line + "\n" + rest;
    if line == "" {
      assert s[0] == '\n';
    } else {
      assert s[0] == line[0];
      assert s[1..] == line[1..] + "\n" + rest;
      LineEndAt(line[1..], rest);
    }
  }

  /** Splitting takes the lines off the front one by one. */
  lemma SplitFirst(line: string, rest: string)
    requires NoBreak(line)
    ensures SplitLines(line + "\n" + rest) == [line] + SplitLines(rest)
  {
    LineEndAt(line, rest);
    var s := line + "\n" + rest;
    assert s[..|line|] == line && s[|line|] == '\n' && s[|line| + 1..] == rest;
  }

  lemma Regroup(a: string, b: string, c: string)
    ensures a + "\n" + b + "\n" + c == a + "\n" + (b + "\n" + c)
    ensures a + b + "\n" + c == a + (b + "\n" + c)
  {
  }

  lemma Cons<T>(a: seq<T>, b: seq<T>)
    requires a != []
    ensures [a[0]] + (a[1..] + b) == a + b
    ensures a[..|a| - 1] + ([a[|a| - 1]] + b) == a + b
  {
  }

  /** Joined lines split back, whatever text follows them. */
  lemma {:induction false} SplitJoined(lines: seq<string>, rest: string)
    requires lines != [] && LinesOk(lines)
    ensures SplitLines(JoinLines(lines) + "\n" + rest) == lines + SplitLines(rest)
  {
    if |lines| == 1 {
      SplitFirst(lines[0], rest);
    } else {
      var tail := lines[1..];
      SplitJoined(tail, rest);
      SplitFirst(lines[0], JoinLines(tail) + "\n" + rest);
      Regroup(lines[0], JoinLines(tail), rest);
      Cons(lines, SplitLines(rest));
    }
  }

  lemma SplitWritten(lines: seq<string>)
    requires LinesOk(lines)
    ensures SplitLines(JoinLines(lines) + "\n") == if lines == [] then [""] else lines
  {
    if lines == [] {
      SplitFirst("", "");
    } else {
      SplitJoined(lines, "");
      assert JoinLines(lines) + "\n" + "" == JoinLines(lines) + "\n";
    }
  }

  // ---------------------------------------------------------------- fields

  predicate Without(s: string, c: char) {
    forall i :: 0 <= i < |s| ==> s[i] != c
  }

  /** Index of the first `c`, or the length. */
  function Find(s: string, c: char): (n: nat)
    ensures n <= |s| && Without(s[..n], c) && (n < |s| ==> s[n] == c)
    ensures n == |s| <==> Without(s, c)
  {
    if s == "" then 0
    else if s[0] == c then 0
    else
      var n := Find(s[1..], c);
      assert forall i :: 0 < i < |s| ==> s[i] == s[1..][i - 1];
      1 + n
  }

  /** `s.split(c)`. */
  function Split(s: string, c: char): (parts: seq<string>)
    ensures |parts| >= 1
    decreases |s|
  {
    var n := Find(s, c);
    if n == |s| then [s] else [s[..n]] + Split(s[n + 1..], c)
  }

  function JoinWith(parts: seq<string>, c: char): string
    requires |parts| >= 1
  {
    if |parts| == 1 then parts[0] else parts[0] + [c] + JoinWith(parts[1..], c)
  }

  lemma FindAt(a: string, c: char, rest: string)
    requires Without(a, c)
    ensures Find(a + [c] + rest, c) == |a|
  {
    var s := a + [c] + rest;
    var n := Find(s, c);
    assert s[|a|] == c;
    assert forall i | 0 <= i < |a| :: s[i] == a[i];
    assert forall m | |a| < m <= |s| :: s[..m][|a|] == c;
  }

  lemma SplitAt(a: string, c: char, rest: string)
    requires Without(a, c)
    ensures Split(a + [c] + rest, c) == [a] + Split(rest, c)
  {
    var s := a + [c] + rest;
    FindAt(a, c, rest);
    assert s[..|a|] == a && s[|a| + 1..] == rest;
  }

  lemma {:induction false} SplitJoin(parts: seq<string>, c: char)
    requires |parts| >= 1 && forall i :: 0 <= i < |parts| ==> Without(parts[i], c)
    ensures Split(JoinWith(parts, c), c) == parts
  {
    if |parts| > 1 {
      SplitAt(parts[0], c, JoinWith(parts[1..], c));
      SplitJoin(parts[1..], c);
      Cons(parts, []);
    }
  }

  // -------------------------------------------------------------- numerals

  predicate Digits(s: string) {
    s != "" && forall i :: 0 <= i < |s| ==> '0' <= s[i] <= '9'
  }

  function Digit(d: nat): char
    requires d < 10
  {
    ('0' as int + d) as char
  }

  /** A number's decimal text. */
  function Decimal(n: nat): (s: string)
    ensures Digits(s)
  {
    if n < 10 then [Digit(n)] else Decimal(n / 10) + [Digit(n % 10)]
  }
}
