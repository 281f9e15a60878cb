/** The string operations the printers use. */
module Text {
  predicate Contains(s: string, cs: set<char>) {
    exists c :: c in s && c in cs
  }

  predicate StartsWith(s: string, p: string) {
    |p| <= |s| && s[..|p|] == p
  }

  /** strings.ReplaceAll: leftmost occurrences that do not overlap. */
  function ReplaceAll(s: string, old_: string, new_: string): string
    requires old_ != ""
  {
    if s == "" then ""
    else if StartsWith(s, old_) then new_ + ReplaceAll(s[|old_|..], old_, new_)
    else [s[0]] + ReplaceAll(s[1..], old_, new_)
  }

  /** strings.Split on one character. */
  function Split(s: string, sep: char): (r: seq<string>)
    ensures |r| > 0
  {
    if s == "" then [""]
    else
      var rest := Split(s[1..], sep);
      if s[0] == sep then [""] + rest else [[s[0]] + rest[0]] + rest[1..]
  }

  lemma {:induction false} SplitParts(s: string, sep: char, i: nat)
    requires i < |Split(s, sep)|
    ensures forall c :: c in Split(s, sep)[i] ==> c in s && c != sep
  {
    if s != "" {
      var rest := Split(s[1..], sep);
      if s[0] == sep {
        if i > 0 { SplitParts(s[1..], sep, i - 1); }
      } else {
        SplitParts(s[1..], sep, i);
      }
    }
  }

  lemma {:induction false} SplitWhole(s: string, sep: char)
    requires sep !in s
    ensures Split(s, sep) == [s]
  {
    if s != "" {
      SplitWhole(s[1..], sep);
      assert [s[0]] + s[1..] == s;
    }
  }

  function MapAll(f: string -> string, texts: seq<string>): seq<string> {
    if texts == [] then [] else [f(texts[0])] + MapAll(f, texts[1..])
  }

  lemma {:induction false} MapAllAppend(f: string -> string, a: seq<string>, b: seq<string>)
    ensures MapAll(f, a + b) == MapAll(f, a) + MapAll(f, b)
  {
    if a == [] {
      assert a + b == b;
    } else {
      MapAllAppend(f, a[1..], b);
      assert (a + b)[1..] == a[1..] + b;
    }
  }

  lemma {:induction false} MapAllAt(f: string -> string, texts: seq<string>)
    ensures |MapAll(f, texts)| == |texts|
    ensures forall i :: 0 <= i < |texts| ==> MapAll(f, texts)[i] == f(texts[i])
  {
    if texts != [] { MapAllAt(f, texts[1..]); }
  }

  lemma Regroup(a: string, b: string, c: string)
    ensures a + b + c == a + (b + c)
  {
  }

  /** Each line followed by a line feed. */
  function Unlines(lines: seq<string>): string {
    if lines == [] then "" else lines[0] + "\n" + Unlines(lines[1..])
  }

  lemma {:induction false} UnlinesSplit(s: string)
    ensures Unlines(Split(s, '\n')) == s + "\n"
  {
    if s == "" {
      assert Unlines([""]) == "" + "\n" + Unlines([]);
    } else {
      var rest := Split(s[1..], '\n');
      UnlinesSplit(s[1..]);
      if s[0] == '\n' {
        assert ([""] + rest)[1..] == rest;
        assert s == "\n" + s[1..];
      } else {
        var r := [[s[0]] + rest[0]] + rest[1..];
        assert r[1..] == rest[1..];
        assert s == [s[0]] + s[1..];
        assert Unlines(r) == [s[0]] + (rest[0] + "\n" + Unlines(rest[1..]));
      }
    }
  }

  lemma {:induction false} UnlinesConcat(a: seq<string>, b: seq<string>)
    ensures Unlines(a + b) == Unlines(a) + Unlines(b)
  {
    if a == [] {
      assert a + b == b;
    } else {
      UnlinesConcat(a[1..], b);
      assert (a + b)[1..] == a[1..] + b;
    }
  }

  /** Line endings told apart one character at a time: CRLF and CR become LF. */
  function LineFeeds(s: string): string {
    if s == "" then ""
    else if s[0] != '\r' then [s[0]] + LineFeeds(s[1..])
    else if |s| > 1 && s[1] == '\n' then "\n" + LineFeeds(s[2..])
    else "\n" + LineFeeds(s[1..])
  }

  predicate AtCrLf(s: string) {
    |s| > 1 && s[0] == '\r' && s[1] == '\n'
  }

  lemma FirstPass(s: string)
    requires s != ""
    ensures ReplaceAll(s, "\r\n", "\n") ==
      if AtCrLf(s) then ['\n'] + ReplaceAll(s[2..], "\r\n", "\n") else [s[0]] + ReplaceAll(s[1..], "\r\n", "\n")
  {
    if AtCrLf(s) {
      assert s[..2] == "\r\n";
    } else if |s| > 1 {
      assert s[..2][0] == s[0] && s[..2][1] == s[1];
    }
  }

  /** The two replacements of the printer do just that. */
  lemma {:induction false} TwoPassesAreLineFeeds(s: string)
    ensures ReplaceAll(ReplaceAll(s, "\r\n", "\n"), "\r", "\n") == LineFeeds(s)
    decreases |s|
  {
    if s != "" {
      FirstPass(s);
      if AtCrLf(s) {
        TwoPassesAreLineFeeds(s[2..]);
        ReplaceFirst('\n', ReplaceAll(s[2..], "\r\n", "\n"));
      } else {
        TwoPassesAreLineFeeds(s[1..]);
        ReplaceFirst(s[0], ReplaceAll(s[1..], "\r\n", "\n"));
      }
    }
  }

  lemma ReplaceFirst(c: char, t: string)
    ensures ReplaceAll([c] + t, "\r", "\n") == [if c == '\r' then '\n' else c] + ReplaceAll(t, "\r", "\n")
  {
    assert ([c] + t)[1..] == t;
    assert ([c] + t)[..1] == [c];
  }

  lemma {:induction false} LineFeedsHasNoReturn(s: string)
    ensures '\r' !in LineFeeds(s)
    ensures '\r' !in s ==> LineFeeds(s) == s
    decreases |s|
  {
    if s != "" {
      if s[0] == '\r' && |s| > 1 && s[1] == '\n' {
        LineFeedsHasNoReturn(s[2..]);
      } else {
        LineFeedsHasNoReturn(s[1..]);
      }
    }
  }
}
