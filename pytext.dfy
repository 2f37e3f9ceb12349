/** The pieces of Python's text handling that scripts/generate_firebase_config.py
    relies on: reading a file line by line in text mode, `str.strip()`,
    `str.startswith` and splitting at the first separator. */
module PyText {
  import opened Core

  /** The characters `str.isspace()` accepts, which `str.strip()` removes. */
  predicate IsSpace(c: char)
  {
    var n := c as int;
    || 9 <= n <= 13 || 28 <= n <= 32 || n == 0x85 || n == 0xA0 || n == 0x1680
    || 0x2000 <= n <= 0x200A || n == 0x2028 || n == 0x2029 || n == 0x202F
    || n == 0x205F || n == 0x3000
  }

  predicate AllSpace(s: string)
  {
    forall k :: 0 <= k < |s| ==> IsSpace(s[k])
  }

  function StripLeft(s: string): (r: string)
    ensures |r| <= |s| && r == s[|s| - |r|..]
    ensures AllSpace(s[..|s| - |r|])
    ensures r == [] || !IsSpace(r[0])
  {
    if s != [] && IsSpace(s[0]) then
      var r := StripLeft(s[1..]);
      assert s[..|s| - |r|] == [s[0]] + s[1..][..|s[1..]| - |r|];
      r
    else s
  }

  function StripRight(s: string): (r: string)
    ensures |r| <= |s| && r == s[..|r|]
    ensures AllSpace(s[|r|..])
    ensures r == [] || !IsSpace(r[|r| - 1])
  {
    if s != [] && IsSpace(s[|s| - 1]) then
      var r := StripRight(s[..|s| - 1]);
      assert s[|r|..] == s[..|s| - 1][|r|..] + [s[|s| - 1]];
      r
    else s
  }

  /** `str.strip()`: the text between the leading and trailing whitespace. */
  function Strip(s: string): (r: string)
    ensures |r| <= |s|
    ensures r == [] || (!IsSpace(r[0]) && !IsSpace(r[|r| - 1]))
  {
    StripRight(StripLeft(s))
  }

  /** What `strip()` removes is whitespace at either end, and only that. */
  lemma StripTrims(s: string)
    ensures exists i, j :: 0 <= i <= j <= |s| && Strip(s) == s[i..j] && AllSpace(s[..i]) && AllSpace(s[j..])
  {
    var left := StripLeft(s);
    var r := StripRight(left);
    var i := |s| - |left|;
    assert r == s[i..i + |r|];
    assert s[i + |r|..] == left[|r|..];
    assert AllSpace(s[..i]) && AllSpace(s[i + |r|..]);
  }

  /** A text that starts and ends with a non-space is left as it is. */
  lemma StripKeeps(s: string)
    requires s != [] && !IsSpace(s[0]) && !IsSpace(s[|s| - 1])
    ensures Strip(s) == s
  {
    assert StripLeft(s) == s;
  }

  /** The first index of `c` in `s`. */
  function FindChar(s: string, c: char): (r: Option<nat>)
    ensures r.None? <==> c !in s
    ensures r.Some? ==> r.value < |s| && s[r.value] == c && c !in s[..r.value]
  {
    if s == [] then None
    else if s[0] == c then Some(0)
    else
      match FindChar(s[1..], c)
      case None => None
      case Some(i) =>
        assert s[..i + 1] == [s[0]] + s[1..][..i];
        Some(i + 1)
  }

  /** `s.split(sep)`: the pieces between the separators, so one more piece
      than there are separators. */
  function SplitOn(s: string, sep: char): (pieces: seq<string>)
    ensures |pieces| >= 1
    ensures forall k :: 0 <= k < |pieces| ==> sep !in pieces[k]
    decreases |s|
  {
    match FindChar(s, sep)
    case None => [s]
    case Some(i) => [s[..i]] + SplitOn(s[i + 1..], sep)
  }

  /** `sep.join(pieces)` for a one-character separator. */
  function JoinWith(pieces: seq<string>, sep: char): string
    requires |pieces| >= 1
  {
    if |pieces| == 1 then pieces[0] else pieces[0] + [sep] + JoinWith(pieces[1..], sep)
  }

  /** Splitting loses nothing: the pieces joined with the separator give
      back the text. */
  lemma {:induction false} SplitOnRebuilds(s: string, sep: char)
    ensures JoinWith(SplitOn(s, sep), sep) == s
    decreases |s|
  {
    match FindChar(s, sep)
    case None =>
    case Some(i) =>
      var pieces := SplitOn(s, sep);
      assert pieces == [s[..i]] + SplitOn(s[i + 1..], sep);
      assert pieces[1..] == SplitOn(s[i + 1..], sep);
      SplitOnRebuilds(s[i + 1..], sep);
      assert s == s[..i] + [sep] + s[i + 1..];
  }

  /** Text-mode reading translates `\r\n` and a lone `\r` to `\n`. */
  function UniversalNewlines(s: string): (r: string)
    ensures '\r' !in r
    decreases |s|
  {
    if s == [] then []
    else if s[0] == '\r' then
      if |s| > 1 && s[1] == '\n' then "\n" + UniversalNewlines(s[2..]) else "\n" + UniversalNewlines(s[1..])
    else [s[0]] + UniversalNewlines(s[1..])
  }

  lemma {:induction false} UniversalNewlinesKeeps(s: string)
    requires '\r' !in s
    ensures UniversalNewlines(s) == s
    decreases |s|
  {
    if s != [] {
      assert '\r' !in s[1..] by {
        forall k | 0 <= k < |s[1..]| ensures s[1..][k] != '\r' { assert s[1..][k] == s[k + 1]; }
      }
      UniversalNewlinesKeeps(s[1..]);
    }
  }

  /** The lines `for line in f` sees, with their line ends already gone (the
      loop strips each line anyway). A text ending in a newline gives one
      extra empty piece, which is blank and so, to the parser, nothing. */
  function FileLines(content: string): seq<string>
  {
    SplitOn(UniversalNewlines(content), '\n')
  }

  /** Writes each line followed by a newline, as a template string of one
      line per row does. */
  function JoinLines(lines: seq<string>): string
  {
    if lines == [] then "" else lines[0] + "\n" + JoinLines(lines[1..])
  }

  /** A character other than the newline that no line holds is not in the
      joined text. */
  lemma {:induction false} JoinLinesLacks(lines: seq<string>, c: char)
    requires c != '\n'
    requires forall k :: 0 <= k < |lines| ==> c !in lines[k]
    ensures c !in JoinLines(lines)
  {
    if lines != [] {
      var tail := lines[1..];
      assert forall k :: 0 <= k < |tail| ==> c !in tail[k] by {
        forall k | 0 <= k < |tail| ensures c !in tail[k] { assert tail[k] == lines[k + 1]; }
      }
      JoinLinesLacks(tail, c);
      assert c !in lines[0];
    }
  }

  /** The first separator after a prefix that has none is found right after it. */
  lemma {:induction false} FindCharAfter(prefix: string, c: char, rest: string)
    requires c !in prefix
    ensures FindChar(prefix + [c] + rest, c) == Some(|prefix|)
  {
    if prefix != [] {
      var s := prefix + [c] + rest;
      assert s[0] == prefix[0] && s[1..] == prefix[1..] + [c] + rest;
      FindCharAfter(prefix[1..], c, rest);
    }
  }

  /** Splitting at a newline after a first line that holds none. */
  lemma SplitAfterLine(l: string, rest: string)
    requires '\n' !in l
    ensures SplitOn(l + "\n" + rest, '\n') == [l] + SplitOn(rest, '\n')
  {
    var s := l + "\n" + rest;
    FindCharAfter(l, '\n', rest);
    assert s[..|l|] == l && s[|l| + 1..] == rest;
  }

  /** Splitting what JoinLines wrote gives back the lines, and the empty
      piece after the last newline. */
  lemma {:induction false} SplitJoin(lines: seq<string>)
    requires forall k :: 0 <= k < |lines| ==> '\n' !in lines[k]
    ensures SplitOn(JoinLines(lines), '\n') == lines + [""]
  {
    if lines == [] {
      assert FindChar("", '\n') == None;
    } else {
      var l, tail := lines[0], lines[1..];
      assert forall k :: 0 <= k < |tail| ==> '\n' !in tail[k] by {
        forall k | 0 <= k < |tail| ensures '\n' !in tail[k] { assert tail[k] == lines[k + 1]; }
      }
      calc {
        SplitOn(JoinLines(lines), '\n');
        SplitOn(l + "\n" + JoinLines(tail), '\n');
        { SplitAfterLine(l, JoinLines(tail)); }
        [l] + SplitOn(JoinLines(tail), '\n');
        { SplitJoin(tail); }
        [l] + (tail + [""]);
        { assert lines == [l] + tail; }
        lines + [""];
      }
    }
  }
}
