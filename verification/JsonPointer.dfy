/** JSON Pointers in issue paths, against sections 3 and 4 of RFC 6901. */
module JsonPointer {
  import opened Text

  /** A segment of any type other than int or string comes as its printed text. */
  datatype Segment = Index(value: int) | Name(text: string) | Printed(text: string)

  // ----- escaping -----

  function Escape(segment: string): string {
    ReplaceAll(ReplaceAll(segment, "~", "~0"), "/", "~1")
  }

  function Unescape(segment: string): string {
    ReplaceAll(ReplaceAll(segment, "~1", "/"), "~0", "~")
  }

  /** Escaping one character at a time. */
  function EscapeChar(c: char): string {
    if c == '~' then "~0" else if c == '/' then "~1" else [c]
  }

  function Escaped(s: string): string {
    if s == "" then "" else EscapeChar(s[0]) + Escaped(s[1..])
  }

  lemma ReplaceCharStep(c: char, t: string, old_: char, new_: string)
    ensures ReplaceAll([c] + t, [old_], new_) == (if c == old_ then new_ else [c]) + ReplaceAll(t, [old_], new_)
  {
    var s := [c] + t;
    assert s[1..] == t && s[..1] == [c];
    assert StartsWith(s, [old_]) <==> c == old_;
  }

  lemma {:induction false} EscapeIsEscaped(s: string)
    ensures Escape(s) == Escaped(s)
  {
    if s != "" {
      var c, t := s[0], s[1..];
      var u := ReplaceAll(t, "~", "~0");
      EscapeIsEscaped(t);
      assert s == [c] + t;
      ReplaceCharStep(c, t, '~', "~0");
      if c == '~' {
        assert "~0" + u == ['~'] + (['0'] + u);
        ReplaceCharStep('0', u, '/', "~1");
        ReplaceCharStep('~', ['0'] + u, '/', "~1");
        assert ['~'] + (['0'] + ReplaceAll(u, "/", "~1")) == "~0" + ReplaceAll(u, "/", "~1");
      } else {
        ReplaceCharStep(c, u, '/', "~1");
      }
    }
  }

  lemma ReplacePairStep(s: string, b: char, new_: string)
    requires s != ""
    ensures ReplaceAll(s, ['~', b], new_) ==
      if |s| > 1 && s[0] == '~' && s[1] == b then new_ + ReplaceAll(s[2..], ['~', b], new_)
      else [s[0]] + ReplaceAll(s[1..], ['~', b], new_)
  {
    if |s| > 1 {
      assert s[..2] == [s[0], s[1]];
      assert StartsWith(s, ['~', b]) <==> s[0] == '~' && s[1] == b;
    }
  }

  lemma PairAfterPlain(c: char, rest: string, b: char, new_: string)
    requires c != '~'
    ensures ReplaceAll([c] + rest, ['~', b], new_) == [c] + ReplaceAll(rest, ['~', b], new_)
  {
    ReplacePairStep([c] + rest, b, new_);
    assert ([c] + rest)[1..] == rest;
  }

  lemma PairAfterTilde(x: char, rest: string, b: char, new_: string)
    requires x != '~'
    ensures ReplaceAll(['~', x] + rest, ['~', b], new_) ==
      (if x == b then new_ else ['~', x]) + ReplaceAll(rest, ['~', b], new_)
  {
    var s := ['~', x] + rest;
    ReplacePairStep(s, b, new_);
    if x == b {
      assert s[2..] == rest;
    } else {
      assert s[1..] == [x] + rest;
      PairAfterPlain(x, rest, b, new_);
      assert ['~'] + ([x] + ReplaceAll(rest, ['~', b], new_)) == ['~', x] + ReplaceAll(rest, ['~', b], new_);
    }
  }

  /** After the first pass over an escaped text every slash is back and every tilde is still "~0". */
  function Halfway(s: string): string {
    if s == "" then "" else (if s[0] == '~' then "~0" else [s[0]]) + Halfway(s[1..])
  }

  lemma {:induction false} FirstUnescape(s: string)
    ensures ReplaceAll(Escaped(s), "~1", "/") == Halfway(s)
  {
    if s != "" {
      var rest := Escaped(s[1..]);
      FirstUnescape(s[1..]);
      if s[0] == '~' {
        PairAfterTilde('0', rest, '1', "/");
      } else if s[0] == '/' {
        PairAfterTilde('1', rest, '1', "/");
      } else {
        PairAfterPlain(s[0], rest, '1', "/");
      }
    }
  }

  lemma {:induction false} SecondUnescape(s: string)
    ensures ReplaceAll(Halfway(s), "~0", "~") == s
  {
    if s != "" {
      var rest := Halfway(s[1..]);
      SecondUnescape(s[1..]);
      if s[0] == '~' {
        PairAfterTilde('0', rest, '0', "~");
      } else {
        PairAfterPlain(s[0], rest, '0', "~");
      }
      assert s == [s[0]] + s[1..];
    }
  }

  /** The two passes of each direction undo each other, whatever mix of '~' and '/' there is. */
  lemma UnescapeUndoesEscape(s: string)
    ensures Unescape(Escape(s)) == s
  {
    EscapeIsEscaped(s);
    FirstUnescape(s);
    SecondUnescape(s);
  }

  /** A reference token of section 3: no slash, and every tilde begins "~0" or "~1". */
  predicate WellEscaped(s: string) {
    s == "" ||
    (s[0] != '/' &&
     if s[0] == '~' then |s| > 1 && (s[1] == '0' || s[1] == '1') && WellEscaped(s[2..]) else WellEscaped(s[1..]))
  }

  lemma {:induction false} EscapedIsWellEscaped(s: string)
    ensures WellEscaped(Escaped(s))
  {
    if s != "" {
      EscapedIsWellEscaped(s[1..]);
      var rest := Escaped(s[1..]);
      assert s[0] == '~' ==> Escaped(s)[2..] == rest;
      assert s[0] == '/' ==> Escaped(s)[2..] == rest;
      assert s[0] != '~' && s[0] != '/' ==> Escaped(s)[1..] == rest;
    }
  }

  /** The text that a reference token stands for. */
  function Meaning(s: string): string
    requires WellEscaped(s)
  {
    if s == "" then ""
    else if s[0] == '~' then [if s[1] == '0' then '~' else '/'] + Meaning(s[2..])
    else [s[0]] + Meaning(s[1..])
  }

  lemma {:induction false} EscapedMeaning(s: string)
    requires WellEscaped(s)
    ensures Escaped(Meaning(s)) == s
  {
    if s != "" {
      if s[0] == '~' {
        EscapedMeaning(s[2..]);
        assert Meaning(s)[1..] == Meaning(s[2..]);
        assert s == [s[0], s[1]] + s[2..];
      } else {
        EscapedMeaning(s[1..]);
        assert Meaning(s)[1..] == Meaning(s[1..]);
        assert s == [s[0]] + s[1..];
      }
    }
  }

  /** Escaping what was unescaped gives the token back exactly when the token was well escaped. */
  lemma EscapeUndoesUnescape(s: string)
    requires '/' !in s
    ensures Escape(Unescape(s)) == s <==> WellEscaped(s)
  {
    EscapeIsEscaped(Unescape(s));
    EscapedIsWellEscaped(Unescape(s));
    if WellEscaped(s) {
      EscapedMeaning(s);
      EscapeIsEscaped(Meaning(s));
      UnescapeUndoesEscape(Meaning(s));
    }
  }

  lemma {:induction false} EscapedHasNoSlash(s: string)
    ensures '/' !in Escaped(s)
  {
    if s != "" { EscapedHasNoSlash(s[1..]); }
  }

  // ----- pointers -----

  function Natural(n: nat): string {
    (if n < 10 then "" else Natural(n / 10)) + [('0' as int + n % 10) as char]
  }

  /** strconv.Itoa. */
  function Itoa(n: int): string {
    if n < 0 then "-" + Natural(-n) else Natural(n)
  }

  /** The number that decimal digits stand for. */
  function Decimal(s: string): int {
    if s == "" then 0 else 10 * Decimal(s[..|s| - 1]) + (s[|s| - 1] as int - '0' as int)
  }

  /** The printed number is made of digits that stand for it, without a leading zero. */
  lemma {:induction false} NaturalReadsBack(n: nat)
    ensures Decimal(Natural(n)) == n && forall c :: c in Natural(n) ==> '0' <= c <= '9'
    ensures |Natural(n)| > 0 && (Natural(n)[0] == '0' ==> n == 0)
  {
    if n >= 10 { NaturalReadsBack(n / 10); }
    assert Natural(n)[..|Natural(n)| - 1] == if n < 10 then "" else Natural(n / 10);
  }

  /** Printed integers are told apart, and a minus sign marks exactly the negative ones. */
  lemma ItoaReadsBack(n: int)
    ensures n < 0 <==> Itoa(n)[..1] == "-"
    ensures n == if Itoa(n)[..1] == "-" then -Decimal(Itoa(n)[1..]) else Decimal(Itoa(n))
  {
    NaturalReadsBack(if n < 0 then -n else n);
    if n < 0 {
      assert Itoa(n)[1..] == Natural(-n);
    } else {
      assert Itoa(n)[0] in Itoa(n);
    }
  }

  /** The text a segment names. */
  function TextOf(segment: Segment): string {
    if segment.Index? then Itoa(segment.value) else segment.text
  }

  function Texts(segments: seq<Segment>): seq<string> {
    if segments == [] then [] else [TextOf(segments[0])] + Texts(segments[1..])
  }

  function EscapeAll(texts: seq<string>): seq<string> {
    MapAll(Escape, texts)
  }

  /** Each token after a slash. */
  function Slashed(tokens: seq<string>): string {
    if tokens == [] then "" else "/" + tokens[0] + Slashed(tokens[1..])
  }

  function Pointer(texts: seq<string>): string {
    Slashed(EscapeAll(texts))
  }

  lemma {:induction false} SlashedAppend(tokens: seq<string>, more: seq<string>)
    ensures Slashed(tokens + more) == Slashed(tokens) + Slashed(more)
  {
    if tokens == [] {
      assert tokens + more == more;
    } else {
      SlashedAppend(tokens[1..], more);
      assert (tokens + more)[1..] == tokens[1..] + more;
      Regroup("/" + tokens[0], Slashed(tokens[1..]), Slashed(more));
    }
  }

  lemma PointerAppend(texts: seq<string>, more: seq<string>)
    ensures Pointer(texts + more) == Pointer(texts) + Pointer(more)
  {
    MapAllAppend(Escape, texts, more);
    SlashedAppend(EscapeAll(texts), EscapeAll(more));
  }

  lemma PointerOne(text: string)
    ensures Pointer([text]) == "/" + Escape(text)
  {
    var token := Escape(text);
    assert EscapeAll([text]) == [token] + EscapeAll([text][1..]) == [token];
    assert Slashed([token]) == "/" + token + Slashed([token][1..]) == "/" + token;
  }

  lemma {:induction false} NaturalIsPlain(n: nat)
    ensures '/' !in Natural(n) && '~' !in Natural(n)
  {
    if n >= 10 { NaturalIsPlain(n / 10); }
  }

  lemma {:induction false} EscapePlain(s: string)
    requires '/' !in s && '~' !in s
    ensures Escaped(s) == s
  {
    if s != "" {
      EscapePlain(s[1..]);
      assert s == [s[0]] + s[1..];
    }
  }

  lemma IndexNeedsNoEscape(n: int)
    ensures Escape(Itoa(n)) == Itoa(n)
  {
    NaturalIsPlain(if n < 0 then -n else n);
    EscapePlain(Itoa(n));
    EscapeIsEscaped(Itoa(n));
  }

  lemma {:induction false} TextsAppend(segments: seq<Segment>, i: nat)
    requires i < |segments|
    ensures Texts(segments[..i + 1]) == Texts(segments[..i]) + [TextOf(segments[i])]
  {
    if i > 0 {
      TextsAppend(segments[1..], i - 1);
      assert segments[1..][..i] == segments[..i + 1][1..];
      assert segments[1..][..i - 1] == segments[..i][1..];
    } else {
      assert segments[..1][1..] == [] && segments[..0] == [];
    }
  }

  /** What jsonPointer writes after the slash. */
  method WriteSegment(segment: Segment) returns (token: string)
    ensures token == Escape(TextOf(segment))
  {
    match segment
    case Index(value) =>
      IndexNeedsNoEscape(value);
      token := Itoa(value);
    case Name(text) => token := Escape(text);
    case Printed(text) => token := Escape(text);
  }

  /** jsonPointer. */
  method JsonPointerOf(segments: seq<Segment>) returns (pointer: string)
    ensures pointer == Pointer(Texts(segments))
  {
    pointer := "";
    for i := 0 to |segments|
      invariant pointer == Pointer(Texts(segments[..i]))
    {
      PointerNext(segments, i);
      pointer := pointer + "/";
      var token := WriteSegment(segments[i]);
      pointer := pointer + token;
    }
    assert segments[..|segments|] == segments;
  }

  lemma PointerNext(segments: seq<Segment>, i: nat)
    requires i < |segments|
    ensures Pointer(Texts(segments[..i + 1])) == Pointer(Texts(segments[..i])) + "/" + Escape(TextOf(segments[i]))
  {
    TextsAppend(segments, i);
    PointerAppend(Texts(segments[..i]), [TextOf(segments[i])]);
    PointerOne(TextOf(segments[i]));
    Regroup(Pointer(Texts(segments[..i])), "/", Escape(TextOf(segments[i])));
  }

  // ----- reading a pointer -----

  function UnescapeAll(raw: seq<string>): seq<string> {
    MapAll(Unescape, raw)
  }

  function TrimSlash(pointer: string): string {
    if pointer != "" && pointer[0] == '/' then pointer[1..] else pointer
  }

  function Tokens(pointer: string): seq<string> {
    if pointer == "" then [] else Split(TrimSlash(pointer), '/')
  }

  function Segments(pointer: string): seq<string> {
    UnescapeAll(Tokens(pointer))
  }

  /** pointerSegments. */
  method PointerSegments(pointer: string) returns (segments: seq<string>)
    ensures segments == Segments(pointer)
  {
    if pointer == "" {
      return [];
    }
    var raw := Split(TrimSlash(pointer), '/');
    MapAllAt(Unescape, raw);
    segments := [];
    for i := 0 to |raw|
      invariant |segments| == i && forall j :: 0 <= j < i ==> segments[j] == Unescape(raw[j])
    {
      segments := segments + [Unescape(raw[i])];
    }
  }

  /** Splitting at slashes, across a slash. */
  lemma {:induction false} SplitAtSlash(a: string, b: string)
    requires '/' !in a
    ensures Split(a + "/" + b, '/') == [a] + Split(b, '/')
  {
    var s := a + "/" + b;
    if a == "" {
      assert s[1..] == b;
    } else {
      SplitAtSlash(a[1..], b);
      assert s[1..] == a[1..] + "/" + b;
      assert [a[0]] + a[1..] == a;
    }
  }

  ghost predicate NoSlashes(tokens: seq<string>) {
    forall i :: 0 <= i < |tokens| ==> '/' !in tokens[i]
  }

  lemma {:induction false} TokensOfSlashed(tokens: seq<string>)
    requires NoSlashes(tokens)
    ensures Tokens(Slashed(tokens)) == tokens
  {
    if tokens != [] {
      var first, rest := tokens[0], Slashed(tokens[1..]);
      assert TrimSlash(Slashed(tokens)) == first + rest;
      TokensOfSlashed(tokens[1..]);
      if tokens[1..] == [] {
        assert first + rest == first;
        SplitWhole(first, '/');
      } else {
        assert rest == "/" + TrimSlash(rest);
        assert first + rest == first + "/" + TrimSlash(rest);
        SplitAtSlash(first, TrimSlash(rest));
      }
    }
  }

  lemma {:induction false} SlashedSplit(s: string)
    ensures Slashed(Split(s, '/')) == "/" + s
  {
    if s == "" {
      assert Slashed([""]) == "/" + "" + Slashed([""][1..]);
    } else {
      var rest := Split(s[1..], '/');
      SlashedSplit(s[1..]);
      assert s == [s[0]] + s[1..];
      if s[0] == '/' {
        assert ([""] + rest)[1..] == rest;
      } else {
        assert Slashed(rest) == "/" + rest[0] + Slashed(rest[1..]);
        SameTail(s[1..], rest[0], Slashed(rest[1..]));
        Regroup([s[0]], rest[0], Slashed(rest[1..]));
        Regroup("/", [s[0]] + rest[0], Slashed(rest[1..]));
      }
    }
  }

  lemma SameTail(s: string, a: string, b: string)
    requires "/" + a + b == "/" + s
    ensures a + b == s
  {
    assert ("/" + s)[1..] == s;
    assert ("/" + a + b)[1..] == a + b;
  }

  lemma {:induction false} EscapeAllIsClean(texts: seq<string>)
    ensures NoSlashes(EscapeAll(texts)) && UnescapeAll(EscapeAll(texts)) == texts
  {
    if texts != [] {
      EscapeAllIsClean(texts[1..]);
      EscapeIsEscaped(texts[0]);
      EscapedHasNoSlash(texts[0]);
      UnescapeUndoesEscape(texts[0]);
      assert EscapeAll(texts)[1..] == EscapeAll(texts[1..]);
    }
  }

  lemma SegmentsOfPointer(texts: seq<string>)
    ensures Segments(Pointer(texts)) == texts
  {
    EscapeAllIsClean(texts);
    TokensOfSlashed(EscapeAll(texts));
  }

  /** pointerSegments undoes jsonPointer, for every list of segments. */
  lemma PointerRoundTrip(segments: seq<Segment>)
    ensures Segments(Pointer(Texts(segments))) == Texts(segments)
  {
    SegmentsOfPointer(Texts(segments));
  }

  /** A JSON Pointer of section 3: empty, or reference tokens each after a slash. */
  ghost predicate ValidPointer(pointer: string) {
    pointer == "" || (pointer[0] == '/' && forall i :: 0 <= i < |Tokens(pointer)| ==> WellEscaped(Tokens(pointer)[i]))
  }

  lemma {:induction false} EscapeAllUndoesUnescapeAll(tokens: seq<string>)
    requires NoSlashes(tokens)
    ensures EscapeAll(UnescapeAll(tokens)) == tokens <==> forall i :: 0 <= i < |tokens| ==> WellEscaped(tokens[i])
  {
    if tokens != [] {
      EscapeUndoesUnescape(tokens[0]);
      EscapeAllUndoesUnescapeAll(tokens[1..]);
      var back, rest := EscapeAll(UnescapeAll(tokens)), EscapeAll(UnescapeAll(tokens[1..]));
      assert UnescapeAll(tokens)[1..] == UnescapeAll(tokens[1..]);
      assert back == [Escape(Unescape(tokens[0]))] + rest;
      assert back == tokens <==> Escape(Unescape(tokens[0])) == tokens[0] && rest == tokens[1..] by {
        assert tokens == [tokens[0]] + tokens[1..];
        assert back[1..] == rest;
      }
    }
  }

  lemma TokensHaveNoSlash(pointer: string)
    ensures NoSlashes(Tokens(pointer))
  {
    if pointer != "" {
      forall i | 0 <= i < |Tokens(pointer)| ensures '/' !in Tokens(pointer)[i] {
        SplitParts(TrimSlash(pointer), '/', i);
      }
    }
  }

  /** Printing the segments of a pointer gives the pointer back exactly when it is a valid one. */
  lemma ReprintedIffValid(pointer: string)
    ensures Pointer(Segments(pointer)) == pointer <==> ValidPointer(pointer)
  {
    var tokens := Tokens(pointer);
    TokensHaveNoSlash(pointer);
    EscapeAllUndoesUnescapeAll(tokens);
    EscapeAllIsClean(UnescapeAll(tokens));
    if pointer != "" {
      SlashedSplit(TrimSlash(pointer));
      if Slashed(EscapeAll(UnescapeAll(tokens))) == pointer {
        TokensOfSlashed(EscapeAll(UnescapeAll(tokens)));
        assert UnescapeAll(tokens) != [];
      }
    }
  }

  // ----- nesting -----

  lemma SplitHasNoSlash(s: string)
    ensures NoSlashes(Split(s, '/'))
  {
    forall i | 0 <= i < |Split(s, '/')| ensures '/' !in Split(s, '/')[i] {
      SplitParts(s, '/', i);
    }
  }

  lemma SplitJoins(a: string, b: string)
    ensures Split(a + "/" + b, '/') == Split(a, '/') + Split(b, '/')
  {
    var whole, parts := a + "/" + b, Split(a, '/') + Split(b, '/');
    assert NoSlashes(parts) by {
      SplitHasNoSlash(a);
      SplitHasNoSlash(b);
    }
    assert Slashed(parts) == "/" + whole by {
      SlashedSplit(a);
      SlashedSplit(b);
      SlashedAppend(Split(a, '/'), Split(b, '/'));
      assert "/" + a + ("/" + b) == "/" + whole;
    }
    assert Tokens("/" + whole) == parts by { TokensOfSlashed(parts); }
    assert ("/" + whole)[1..] == whole;
  }

  lemma {:induction false} SplitMerges(a: string, b: string)
    ensures |Split(a + b, '/')| == |Split(a, '/')| + |Split(b, '/')| - 1
  {
    if a == "" {
      assert a + b == b;
    } else {
      SplitMerges(a[1..], b);
      assert (a + b)[1..] == a[1..] + b;
    }
  }

  datatype Failure = Issue(path: string, message: string) | Plain(message: string)

  /** issueAt. */
  function IssueAt(path: string, failure: Failure): Failure {
    if failure.Issue? then failure.(path := path + failure.path) else Issue(path, failure.message)
  }

  lemma TrimJoined(path: string, inner: string)
    requires path != ""
    ensures TrimSlash(path + inner) == TrimSlash(path) + inner
  {
  }

  lemma InnerBeginsWithSlash(path: string, inner: string)
    requires path != "" && inner != "" && inner[0] == '/'
    ensures Segments(path + inner) == Segments(path) + Segments(inner)
  {
    var a, b := TrimSlash(path), TrimSlash(inner);
    TrimJoined(path, inner);
    assert a + inner == a + "/" + b;
    SplitJoins(a, b);
    MapAllAppend(Unescape, Tokens(path), Tokens(inner));
  }

  lemma InnerWithoutSlash(path: string, inner: string)
    requires path != "" && inner != "" && inner[0] != '/'
    ensures |Segments(path + inner)| < |Segments(path)| + |Segments(inner)|
  {
    TrimJoined(path, inner);
    SplitMerges(TrimSlash(path), inner);
    MapAllAt(Unescape, Tokens(path + inner));
    MapAllAt(Unescape, Tokens(path));
    MapAllAt(Unescape, Tokens(inner));
  }

  /** Wrapping an issue concatenates the segments of the two paths exactly when one path is empty
      or the inner one begins with a slash, as every printed pointer does. */
  lemma NestingConcatenatesSegments(path: string, inner: string, message: string)
    ensures Segments(IssueAt(path, Issue(inner, message)).path) == Segments(path) + Segments(inner) <==>
      path == "" || inner == "" || inner[0] == '/'
    ensures IssueAt(path, Issue(inner, message)).message == message && IssueAt(path, Plain(message)) == Issue(path, message)
  {
    if path == "" {
      assert path + inner == inner;
    } else if inner == "" {
      assert path + inner == path;
    } else if inner[0] == '/' {
      InnerBeginsWithSlash(path, inner);
    } else {
      InnerWithoutSlash(path, inner);
    }
  }
}
