/**
 * The two pure helpers of the log setup: the level-name parser and the
 * shortening of source file paths in log records.
 */
module Logger {
  import opened Common

  /** slog's levels are integers; these are its four named ones. */
  type Level = int

  const LevelDebug: Level := -4
  const LevelInfo: Level := 0
  const LevelWarn: Level := 4
  const LevelError: Level := 8

  datatype ParseError = InvalidLevel(input: string)  // "<input> is not valid log level"

  /** The level and the error Go returns together; the level is slog's zero level on error. */
  datatype Parsed = Parsed(level: Level, err: Option<ParseError>)

  /** Lowercasing of one character, restricted to ASCII. */
  function AsciiLower(c: char): (d: char)
    // the result is never an upper-case ASCII letter...
    ensures !('A' <= d <= 'Z')
    // ...an upper-case letter becomes the lower-case letter at the same place in the alphabet...
    ensures 'A' <= c <= 'Z' ==> 'a' <= d <= 'z' && d as int - 'a' as int == c as int - 'A' as int
    // ...and nothing else is changed
    ensures d != c ==> 'A' <= c <= 'Z'
  {
    if 'A' <= c <= 'Z' then (c as int + 32) as char else c
  }

  function ToLower(s: string): (r: string)
    ensures |r| == |s|
    ensures forall i :: 0 <= i < |r| ==> !('A' <= r[i] <= 'Z')
    ensures forall i :: 0 <= i < |s| && r[i] != s[i] ==> 'A' <= s[i] <= 'Z'
  {
    seq(|s|, i requires 0 <= i < |s| => AsciiLower(s[i]))
  }

  /** Lowercasing twice is lowercasing once. */
  lemma ToLowerIdempotent(s: string)
    ensures ToLower(ToLower(s)) == ToLower(s)
  {
  }

  /** The parser's dictionary. */
  const LevelNames: map<string, Level> :=
    map["debug" := LevelDebug, "info" := LevelInfo, "warn" := LevelWarn, "error" := LevelError]

  /** slogLevelParser. */
  function SlogLevelParser(lvStr: string): (r: Parsed)
    ensures r.err.None? <==> ToLower(lvStr) in {"debug", "info", "warn", "error"}
    ensures ToLower(lvStr) == "debug" ==> r == Parsed(LevelDebug, None)
    ensures ToLower(lvStr) == "info" ==> r == Parsed(LevelInfo, None)
    ensures ToLower(lvStr) == "warn" ==> r == Parsed(LevelWarn, None)
    ensures ToLower(lvStr) == "error" ==> r == Parsed(LevelError, None)
    ensures r.err.Some? ==> r == Parsed(LevelInfo, Some(InvalidLevel(lvStr)))
  {
    var name := ToLower(lvStr);
    if name in LevelNames then Parsed(LevelNames[name], None)
    else Parsed(LevelInfo, Some(InvalidLevel(lvStr)))
  }

  /** The four names map to four distinct levels, in increasing severity. */
  lemma LevelsDistinct()
    ensures SlogLevelParser("debug").level < SlogLevelParser("info").level
            < SlogLevelParser("warn").level < SlogLevelParser("error").level
  {
  }

  /** Case does not matter: names equal up to ASCII case parse alike. */
  lemma LevelParserIgnoresCase(s: string, t: string)
    requires ToLower(s) == ToLower(t)
    ensures SlogLevelParser(s).level == SlogLevelParser(t).level
    ensures SlogLevelParser(s).err.None? <==> SlogLevelParser(t).err.None?
  {
  }

  lemma LevelParserExamples()
    ensures SlogLevelParser("DEBUG") == Parsed(LevelDebug, None)
    ensures SlogLevelParser("Warn") == Parsed(LevelWarn, None)
    ensures SlogLevelParser("warning") == Parsed(LevelInfo, Some(InvalidLevel("warning")))
  {
  }

  /** The byte '/'. */
  const Slash: byte := 0x2F

  /** strings.LastIndex for a one-byte separator: the last position holding `b`, or -1. */
  function LastIndex(s: seq<byte>, b: byte): (i: int)
    ensures -1 <= i < |s|
    ensures i >= 0 ==> s[i] == b
    ensures forall k :: i < k < |s| ==> s[k] != b
  {
    if s == [] then -1
    else if s[|s| - 1] == b then |s| - 1
    else LastIndex(s[..|s| - 1], b)
  }

  /** How many times `b` occurs in `s`. */
  function Count(s: seq<byte>, b: byte): nat {
    if s == [] then 0 else Count(s[..|s| - 1], b) + (if s[|s| - 1] == b then 1 else 0)
  }

  lemma {:induction false} CountAppend(s: seq<byte>, t: seq<byte>, b: byte)
    ensures Count(s + t, b) == Count(s, b) + Count(t, b)
    decreases |t|
  {
    if t != [] {
      assert (s + t)[..|s + t| - 1] == s + t[..|t| - 1];
      assert (s + t)[|s + t| - 1] == t[|t| - 1];
      CountAppend(s, t[..|t| - 1], b);
    } else {
      assert s + t == s;
    }
  }

  lemma {:induction false} CountAbsent(s: seq<byte>, b: byte)
    requires forall k :: 0 <= k < |s| ==> s[k] != b
    ensures Count(s, b) == 0
    decreases |s|
  {
    if s != [] {
      CountAbsent(s[..|s| - 1], b);
    }
  }

  /** Splitting at the last occurrence: one there, none after it. */
  lemma CountAtLastIndex(s: seq<byte>, b: byte)
    ensures LastIndex(s, b) < 0 ==> Count(s, b) == 0
    ensures LastIndex(s, b) >= 0 ==>
      Count(s, b) == Count(s[..LastIndex(s, b)], b) + 1 && Count(s[LastIndex(s, b) + 1..], b) == 0
  {
    var i := LastIndex(s, b);
    if i < 0 {
      CountAbsent(s, b);
    } else {
      var after := s[i + 1..];
      CountAbsent(after, b);
      assert s == s[..i] + [s[i]] + after;
      CountAppend(s[..i] + [s[i]], after, b);
      CountAppend(s[..i], [s[i]], b);
      assert Count([s[i]], b) == 1 by { assert [s[i]][..0] == []; }
    }
  }

  /** getSimplePath: keep the last directory and the file name of a long path. */
  function GetSimplePath(path: seq<byte>): (r: seq<byte>)
    ensures |r| <= |path| && r == path[|path| - |r|..]
  {
    if |path| <= 10 then path
    else
      var idx := LastIndex(path, Slash);
      if idx < 0 then path
      else
        var jdx := LastIndex(path[..idx], Slash);
        if jdx < 0 then path
        else path[jdx..]
  }

  /** Paths of at most ten bytes are kept whole. */
  lemma ShortPathKept(path: seq<byte>)
    requires |path| <= 10
    ensures GetSimplePath(path) == path
  {
  }

  /** Paths with fewer than two slashes are kept whole. */
  lemma FewSlashesKept(path: seq<byte>)
    requires Count(path, Slash) < 2
    ensures GetSimplePath(path) == path
  {
    var idx := LastIndex(path, Slash);
    CountAtLastIndex(path, Slash);
    if idx >= 0 {
      CountAtLastIndex(path[..idx], Slash);
    }
  }

  /** A slash, a slash-free stretch, a slash, a slash-free stretch: two slashes. */
  lemma CountTwoSeparators(middle: seq<byte>, tail: seq<byte>, b: byte)
    requires forall k :: 0 <= k < |middle| ==> middle[k] != b
    requires forall k :: 0 <= k < |tail| ==> tail[k] != b
    ensures Count([b] + middle + [b] + tail, b) == 2
  {
    CountAbsent(middle, b);
    CountAbsent(tail, b);
    assert Count([b], b) == 1 by { assert [b][..0] == []; }
    CountAppend([b], middle, b);
    CountAppend([b] + middle, [b], b);
    CountAppend([b] + middle + [b], tail, b);
  }

  /**
   * A longer path with at least two slashes is cut at its second-to-last
   * slash: the result is the suffix that starts with a slash and holds exactly
   * two of them.
   */
  lemma CutAtSecondToLastSlash(path: seq<byte>)
    requires |path| > 10 && Count(path, Slash) >= 2
    ensures var r := GetSimplePath(path);
      |r| > 0 && r[0] == Slash && Count(r, Slash) == 2
  {
    var idx := LastIndex(path, Slash);
    CountAtLastIndex(path, Slash);
    var head := path[..idx];
    var jdx := LastIndex(head, Slash);
    CountAtLastIndex(head, Slash);
    var middle := head[jdx + 1..];
    var tail := path[idx + 1..];
    assert path[jdx..] == [Slash] + middle + [Slash] + tail;
    CountTwoSeparators(middle, tail, Slash);
  }
}
