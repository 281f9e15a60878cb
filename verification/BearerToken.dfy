/** Bearer tokens: prefix, secret, separator and a base-62 checksum. The checksum algorithm itself
    is a parameter. */
module BearerToken {
  import opened Text

  type Word = x: int | 0 <= x < 0x1_0000_0000

  datatype Kind = PersonalAccess | Organization | Daemon | OAuthAccess | Unsupported(name: string)

  datatype Result<T> = Ok(value: T) | Invalid

  const SECRET_LENGTH := 43
  const CHECKSUM_LENGTH := 6
  const RADIX := 62
  const UNBIASED_BYTE_LIMIT := 256 - 256 % RADIX
  const SEPARATOR := '_'
  const DIGITS := "0123456789"
  const UPPER := "ABCDEFGHIJKLMNOPQRSTUVWXYZ"
  const LOWER := "abcdefghijklmnopqrstuvwxyz"
  const ALPHABET := DIGITS + UPPER + LOWER

  // ----- the alphabet -----

  predicate Base62Char(c: char) {
    '0' <= c <= '9' || 'A' <= c <= 'Z' || 'a' <= c <= 'z'
  }

  function CharOf(d: int): (c: char)
    requires 0 <= d < RADIX
    ensures Base62Char(c)
  {
    if d < 10 then ('0' as int + d) as char
    else if d < 36 then ('A' as int + d - 10) as char
    else ('a' as int + d - 36) as char
  }

  /** The position of a character in the alphabet. */
  function DigitOf(c: char): (d: int)
    requires Base62Char(c)
    ensures 0 <= d < RADIX && CharOf(d) == c
  {
    if c <= '9' then c as int - '0' as int
    else if c <= 'Z' then c as int - 'A' as int + 10
    else c as int - 'a' as int + 36
  }

  lemma DigitsAt(d: nat)
    requires d < 10
    ensures |DIGITS| == 10 && DIGITS[d] == ('0' as int + d) as char
  {
  }

  lemma UpperAt(d: nat)
    requires d < 26
    ensures |UPPER| == 26 && UPPER[d] == ('A' as int + d) as char
  {
  }

  lemma LowerAt(d: nat)
    requires d < 26
    ensures |LOWER| == 26 && LOWER[d] == ('a' as int + d) as char
  {
  }

  lemma AlphabetAt(d: nat)
    requires d < RADIX
    ensures |ALPHABET| == RADIX && ALPHABET[d] == CharOf(d)
  {
    DigitsAt(if d < 10 then d else 0);
    UpperAt(if 10 <= d < 36 then d - 10 else 0);
    LowerAt(if 36 <= d then d - 36 else 0);
  }

  lemma DigitsAreDistinct(d: nat)
    requires d < RADIX
    ensures DigitOf(CharOf(d)) == d
  {
  }

  /** The character a random byte stands for. */
  function CharOfByte(b: int): char
    requires 0 <= b < 256
  {
    CharOf(b % RADIX)
  }

  lemma ByteStandsFor(b: int, d: nat)
    requires 0 <= b < UNBIASED_BYTE_LIMIT && d < RADIX
    ensures CharOfByte(b) == CharOf(d) <==> b == d || b == d + 62 || b == d + 124 || b == d + 186
  {
    DigitsAreDistinct(d);
    DigitsAreDistinct(b % RADIX);
  }

  /** Of the bytes that are not rejected, exactly four stand for each character: no character is
      likelier than another. */
  lemma FourBytesEach(c: char)
    requires Base62Char(c)
    ensures |set b: int | 0 <= b < UNBIASED_BYTE_LIMIT && CharOfByte(b) == c| == 4
  {
    var d := DigitOf(c);
    var bytes := set b: int | 0 <= b < UNBIASED_BYTE_LIMIT && CharOfByte(b) == c;
    var four := {d, d + 62, d + 124, d + 186};
    forall b | 0 <= b < UNBIASED_BYTE_LIMIT ensures b in bytes <==> b in four {
      ByteStandsFor(b, d);
    }
    assert bytes == four;
  }

  // ----- the checksum -----

  /** The last n base-62 digits of the value. */
  function Digits(value: nat, n: nat): (s: string)
    ensures |s| == n && forall i :: 0 <= i < n ==> Base62Char(s[i])
  {
    if n == 0 then "" else Digits(value / RADIX, n - 1) + [CharOf(value % RADIX)]
  }

  function Power(n: nat): nat {
    if n == 0 then 1 else RADIX * Power(n - 1)
  }

  /** The number a string of base-62 digits stands for. */
  function Value(s: string): nat
    requires forall i :: 0 <= i < |s| ==> Base62Char(s[i])
  {
    if s == "" then 0 else Value(s[..|s| - 1]) * RADIX + DigitOf(s[|s| - 1])
  }

  lemma {:induction false} DigitsReadBack(value: nat, n: nat)
    requires value < Power(n)
    ensures Value(Digits(value, n)) == value
  {
    if n > 0 {
      DigitsReadBack(value / RADIX, n - 1);
      DigitsAreDistinct(value % RADIX);
      var s := Digits(value, n);
      assert s[..n - 1] == Digits(value / RADIX, n - 1);
    }
  }

  lemma WordFits()
    ensures Power(CHECKSUM_LENGTH) == 56800235584 > 0x1_0000_0000
  {
    assert Power(2) == 3844;
    assert Power(3) == 238328;
    assert Power(4) == 14776336;
    assert Power(5) == 916132832;
  }

  /** Six digits tell all 32-bit checksums apart. */
  lemma ChecksumIsInjective(a: Word, b: Word)
    requires Digits(a, CHECKSUM_LENGTH) == Digits(b, CHECKSUM_LENGTH)
    ensures a == b
  {
    WordFits();
    DigitsReadBack(a, CHECKSUM_LENGTH);
    DigitsReadBack(b, CHECKSUM_LENGTH);
  }

  function Quotient(value: nat, n: nat): nat {
    if n == 0 then value else Quotient(value / RADIX, n - 1)
  }

  lemma {:induction false} QuotientStep(value: nat, n: nat)
    ensures Quotient(value, n + 1) == Quotient(value, n) / RADIX
  {
    if n > 0 { QuotientStep(value / RADIX, n - 1); }
  }

  /** Each digit, counted from the end. */
  lemma {:induction false} DigitAt(value: nat, n: nat, i: nat)
    requires i < n
    ensures Digits(value, n)[i] == CharOf(Quotient(value, n - 1 - i) % RADIX)
  {
    if i < n - 1 { DigitAt(value / RADIX, n - 1, i); }
  }

  /** encodeChecksum, which fills its buffer from the end. */
  method EncodeChecksum(value: Word) returns (s: string)
    ensures s == Digits(value, CHECKSUM_LENGTH)
  {
    var encoded := new char[CHECKSUM_LENGTH];
    var rest: nat := value;
    var i := CHECKSUM_LENGTH - 1;
    while i >= 0
      invariant -1 <= i < CHECKSUM_LENGTH
      invariant rest == Quotient(value, CHECKSUM_LENGTH - 1 - i)
      invariant forall j :: i < j < CHECKSUM_LENGTH ==> encoded[j] == CharOf(Quotient(value, CHECKSUM_LENGTH - 1 - j) % RADIX)
    {
      AlphabetAt(rest % RADIX);
      encoded[i] := ALPHABET[rest % RADIX];
      QuotientStep(value, CHECKSUM_LENGTH - 1 - i);
      rest := rest / RADIX;
      i := i - 1;
    }
    s := encoded[..];
    forall j | 0 <= j < CHECKSUM_LENGTH ensures s[j] == Digits(value, CHECKSUM_LENGTH)[j] {
      DigitAt(value, CHECKSUM_LENGTH, j);
    }
  }

  // ----- format and parse -----

  function KindName(kind: Kind): string {
    match kind
    case PersonalAccess => "pat"
    case Organization => "org"
    case Daemon => "daemon"
    case OAuthAccess => "oauth"
    case Unsupported(name) => name
  }

  function Prefix(kind: Kind): string {
    "omnara_" + KindName(kind) + "_v1_"
  }

  predicate Base62(s: string, n: nat) {
    |s| == n && forall i :: 0 <= i < n ==> Base62Char(s[i])
  }

  /** validateBase62. */
  method ValidateBase62(value: string, length: nat) returns (ok: bool)
    ensures ok <==> Base62(value, length)
  {
    if |value| != length {
      return false;
    }
    for i := 0 to |value|
      invariant forall j :: 0 <= j < i ==> Base62Char(value[j])
    {
      var c := value[i];
      if !(('0' <= c && c <= '9') || ('A' <= c && c <= 'Z') || ('a' <= c && c <= 'z')) {
        return false;
      }
    }
    return true;
  }

  function Checksum(crc: string -> Word, body: string): string {
    Digits(crc(body), CHECKSUM_LENGTH)
  }

  function Format(crc: string -> Word, kind: Kind, secret: string): Result<string> {
    if kind.Unsupported? || !Base62(secret, SECRET_LENGTH) then Invalid
    else
      var body := Prefix(kind) + secret;
      Ok(body + [SEPARATOR] + Checksum(crc, body))
  }

  function KindOf(token: string): Result<Kind> {
    if StartsWith(token, Prefix(PersonalAccess)) then Ok(PersonalAccess)
    else if StartsWith(token, Prefix(Organization)) then Ok(Organization)
    else if StartsWith(token, Prefix(Daemon)) then Ok(Daemon)
    else if StartsWith(token, Prefix(OAuthAccess)) then Ok(OAuthAccess)
    else Invalid
  }

  function Parse(crc: string -> Word, token: string): Result<Kind> {
    var k := KindOf(token);
    if k.Invalid? then Invalid
    else
      var start := |Prefix(k.value)|;
      var separator := start + SECRET_LENGTH;
      if |token| != separator + 1 + CHECKSUM_LENGTH then Invalid
      else if token[separator] != SEPARATOR then Invalid
      else if !Base62(token[start..separator], SECRET_LENGTH) then Invalid
      else if !Base62(token[separator + 1..], CHECKSUM_LENGTH) then Invalid
      else if token[separator + 1..] != Checksum(crc, token[..separator]) then Invalid
      else k
  }

  /** No prefix begins another: the character after "omnara_" decides, or the one after that. */
  lemma KindOfPrefixed(kind: Kind, rest: string)
    requires !kind.Unsupported?
    ensures KindOf(Prefix(kind) + rest) == Ok(kind)
  {
    var token := Prefix(kind) + rest;
    assert token[..|Prefix(kind)|] == Prefix(kind);
    assert token[7] == KindName(kind)[0] && token[8] == KindName(kind)[1];
    OtherPrefix(token, PersonalAccess);
    OtherPrefix(token, Organization);
    OtherPrefix(token, Daemon);
    OtherPrefix(token, OAuthAccess);
  }

  lemma OtherPrefix(token: string, other: Kind)
    requires !other.Unsupported? && |token| > 8
    ensures StartsWith(token, Prefix(other)) ==> token[7] == KindName(other)[0] && token[8] == KindName(other)[1]
  {
    assert Prefix(other)[7] == KindName(other)[0] && Prefix(other)[8] == KindName(other)[1];
    if StartsWith(token, Prefix(other)) {
      assert token[..|Prefix(other)|][7] == token[7] && token[..|Prefix(other)|][8] == token[8];
    }
  }

  lemma ParseAcceptsFormatted(crc: string -> Word, kind: Kind, secret: string)
    requires Format(crc, kind, secret).Ok?
    ensures Parse(crc, Format(crc, kind, secret).value) == Ok(kind)
  {
    var body := Prefix(kind) + secret;
    var token := body + [SEPARATOR] + Checksum(crc, body);
    assert token == Prefix(kind) + (secret + [SEPARATOR] + Checksum(crc, body));
    KindOfPrefixed(kind, secret + [SEPARATOR] + Checksum(crc, body));
    var start, separator := |Prefix(kind)|, |Prefix(kind)| + SECRET_LENGTH;
    assert token[start..separator] == secret;
    assert token[..separator] == body;
    assert token[separator + 1..] == Checksum(crc, body);
  }

  lemma ParsedIsFormatted(crc: string -> Word, token: string)
    requires Parse(crc, token).Ok?
    ensures var kind := Parse(crc, token).value; var start := |Prefix(kind)|;
      start + SECRET_LENGTH <= |token| && Format(crc, kind, token[start..start + SECRET_LENGTH]) == Ok(token)
  {
    var kind := Parse(crc, token).value;
    var start, separator := |Prefix(kind)|, |Prefix(kind)| + SECRET_LENGTH;
    assert token[..start] == Prefix(kind);
    assert token[..separator] == token[..start] + token[start..separator];
    assert token == token[..separator] + [SEPARATOR] + token[separator + 1..];
  }

  /** Parse accepts exactly the tokens that format produces, and tells their kind. */
  lemma ParseIsInverse(crc: string -> Word, token: string, kind: Kind)
    ensures Parse(crc, token) == Ok(kind) <==> exists secret :: Format(crc, kind, secret) == Ok(token)
  {
    if Parse(crc, token) == Ok(kind) {
      ParsedIsFormatted(crc, token);
    } else if secret :| Format(crc, kind, secret) == Ok(token) {
      ParseAcceptsFormatted(crc, kind, secret);
      assert false;
    }
  }

  predicate Named(kind: Kind, name: string) {
    || (kind == PersonalAccess && name == "pat") || (kind == Organization && name == "org")
    || (kind == Daemon && name == "daemon") || (kind == OAuthAccess && name == "oauth")
  }

  /** The token spelled out: the prefix with the kind's name, a secret of 43 base-62 characters, and
      after an underscore six base-62 digits that stand for the checksum of prefix and secret. */
  ghost predicate Spelled(crc: string -> Word, kind: Kind, name: string, secret: string, digits: string, token: string) {
    && Named(kind, name) && Base62(secret, 43) && Base62(digits, 6)
    && token == "omnara_" + name + "_v1_" + secret + "_" + digits
    && Value(digits) == crc("omnara_" + name + "_v1_" + secret)
  }

  lemma {:induction false} ValueWritesBack(s: string)
    requires forall i :: 0 <= i < |s| ==> Base62Char(s[i])
    ensures Digits(Value(s), |s|) == s
  {
    if s != "" {
      var n := |s| - 1;
      ValueWritesBack(s[..n]);
      DigitsAreDistinct(DigitOf(s[n]));
      assert Value(s) / RADIX == Value(s[..n]) && Value(s) % RADIX == DigitOf(s[n]);
      assert s == s[..n] + [s[n]];
    }
  }

  /** Six digits are the checksum's exactly when they stand for it. */
  lemma ChecksumMeans(crc: string -> Word, body: string, digits: string)
    requires Base62(digits, CHECKSUM_LENGTH)
    ensures digits == Checksum(crc, body) <==> Value(digits) == crc(body)
  {
    WordFits();
    DigitsReadBack(crc(body), CHECKSUM_LENGTH);
    ValueWritesBack(digits);
  }

  lemma FormatMeans(crc: string -> Word, kind: Kind, secret: string, token: string)
    ensures Format(crc, kind, secret) == Ok(token) <==>
      exists name, digits :: Spelled(crc, kind, name, secret, digits, token)
  {
    var name := KindName(kind);
    var body := Prefix(kind) + secret;
    assert [SEPARATOR] == "_";
    if Format(crc, kind, secret) == Ok(token) {
      ChecksumMeans(crc, body, Checksum(crc, body));
      assert Spelled(crc, kind, name, secret, Checksum(crc, body), token);
    } else if other, digits :| Spelled(crc, kind, other, secret, digits, token) {
      assert other == name;
      ChecksumMeans(crc, body, digits);
      assert false;
    }
  }

  /** Parse accepts exactly the tokens spelled out so, and tells their kind. */
  lemma TokenMeans(crc: string -> Word, token: string, kind: Kind)
    ensures Parse(crc, token) == Ok(kind) <==>
      exists name, secret, digits :: Spelled(crc, kind, name, secret, digits, token)
  {
    ParseIsInverse(crc, token, kind);
    if secret :| Format(crc, kind, secret) == Ok(token) {
      FormatMeans(crc, kind, secret, token);
    } else if name, secret, digits :| Spelled(crc, kind, name, secret, digits, token) {
      FormatMeans(crc, kind, secret, token);
      assert false;
    }
  }

  // ----- secrets -----

  type Byte = b: int | 0 <= b < 256

  /** One read of the random source: the bytes it gave, and whether it also failed. */
  datatype Read = Read(bytes: seq<Byte>, failed: bool)

  /** The characters that the unbiased bytes stand for. */
  function Kept(bytes: seq<Byte>): (s: string)
    ensures forall i :: 0 <= i < |s| ==> Base62Char(s[i])
  {
    if bytes == [] then ""
    else
      var last := bytes[|bytes| - 1];
      var front := Kept(bytes[..|bytes| - 1]);
      if last < UNBIASED_BYTE_LIMIT then front + [CharOfByte(last)] else front
  }

  function AllBytes(feed: seq<Read>): seq<Byte> {
    if feed == [] then [] else AllBytes(feed[..|feed| - 1]) + feed[|feed| - 1].bytes
  }

  lemma {:induction false} KeptConcat(a: seq<Byte>, b: seq<Byte>)
    ensures Kept(a + b) == Kept(a) + Kept(b)
    decreases |b|
  {
    if b == [] {
      assert a + b == a;
    } else {
      assert (a + b)[..|a + b| - 1] == a + b[..|b| - 1];
      KeptConcat(a, b[..|b| - 1]);
    }
  }

  lemma KeptNext(bytes: seq<Byte>, i: nat)
    requires i < |bytes|
    ensures Kept(bytes[..i + 1]) ==
      if bytes[i] < UNBIASED_BYTE_LIMIT then Kept(bytes[..i]) + [CharOfByte(bytes[i])] else Kept(bytes[..i])
  {
    assert bytes[..i + 1][..i] == bytes[..i];
  }

  lemma KeptGrows(secret: string, bytes: seq<Byte>, i: nat)
    requires i <= |bytes|
    ensures secret + Kept(bytes[..i]) <= secret + Kept(bytes)
  {
    assert bytes == bytes[..i] + bytes[i..];
    KeptConcat(bytes[..i], bytes[i..]);
    PrefixUnder(secret, Kept(bytes[..i]), Kept(bytes[i..]));
  }

  lemma PrefixUnder(a: string, b: string, c: string)
    ensures a + b <= a + (b + c)
  {
    assert a + (b + c) == a + b + c;
  }

  method AlphabetChar(b: Byte) returns (c: char)
    ensures c == CharOfByte(b)
  {
    AlphabetAt(b % RADIX);
    c := ALPHABET[b % RADIX];
  }

  /** The candidate loop over one read. */
  method TakeCandidates(secret0: string, candidates: seq<Byte>) returns (secret: string)
    requires |secret0| < SECRET_LENGTH
    ensures |secret| <= SECRET_LENGTH && secret <= secret0 + Kept(candidates)
    ensures |secret| < SECRET_LENGTH ==> secret == secret0 + Kept(candidates)
  {
    secret := secret0;
    for i := 0 to |candidates|
      invariant |secret| < SECRET_LENGTH && secret == secret0 + Kept(candidates[..i])
    {
      KeptNext(candidates, i);
      if candidates[i] >= UNBIASED_BYTE_LIMIT {
        continue;
      }
      var c := AlphabetChar(candidates[i]);
      secret := secret + [c];
      if |secret| == SECRET_LENGTH {
        KeptGrows(secret0, candidates, i + 1);
        return;
      }
    }
    assert candidates[..|candidates|] == candidates;
  }

  /** generateSecret: the first characters that the source's unbiased bytes stand for. It fails only
      at a read that failed or gave nothing, with too few characters so far. A source that has no
      more reads fails. */
  method GenerateSecret(feed: seq<Read>) returns (r: Result<string>)
    ensures r.Ok? ==> Base62(r.value, SECRET_LENGTH) && r.value <= Kept(AllBytes(feed))
    ensures r.Invalid? ==> exists n ::
      0 <= n <= |feed| && |Kept(AllBytes(feed[..n]))| < SECRET_LENGTH &&
      (n == |feed| || (n > 0 && (feed[n - 1].failed || feed[n - 1].bytes == [])))
  {
    var secret := "";
    for i := 0 to |feed|
      invariant |secret| < SECRET_LENGTH && secret == Kept(AllBytes(feed[..i]))
    {
      ReadNext(feed, i);
      secret := TakeCandidates(secret, feed[i].bytes);
      if |secret| == SECRET_LENGTH {
        return Ok(secret);
      }
      if feed[i].failed || feed[i].bytes == [] {
        return Invalid;
      }
    }
    assert feed[..|feed|] == feed;
    return Invalid;
  }

  lemma ReadNext(feed: seq<Read>, i: nat)
    requires i < |feed|
    ensures Kept(AllBytes(feed[..i + 1])) == Kept(AllBytes(feed[..i])) + Kept(feed[i].bytes)
    ensures Kept(AllBytes(feed[..i + 1])) <= Kept(AllBytes(feed))
  {
    assert feed[..i + 1][..i] == feed[..i];
    KeptConcat(AllBytes(feed[..i]), feed[i].bytes);
    ReadsGrow(feed, i + 1);
  }

  lemma {:induction false} ReadsGrow(feed: seq<Read>, n: nat)
    requires n <= |feed|
    ensures Kept(AllBytes(feed[..n])) <= Kept(AllBytes(feed))
    decreases |feed|
  {
    if n < |feed| {
      var front := feed[..|feed| - 1];
      ReadsGrow(front, n);
      assert front[..n] == feed[..n];
      KeptConcat(AllBytes(front), feed[|feed| - 1].bytes);
    } else {
      assert feed[..n] == feed;
    }
  }

  /** A generated secret always makes a token of the kind asked for. */
  lemma GeneratedTokenParses(crc: string -> Word, kind: Kind, secret: string)
    requires Base62(secret, SECRET_LENGTH) && !kind.Unsupported?
    ensures Format(crc, kind, secret).Ok? && Parse(crc, Format(crc, kind, secret).value) == Ok(kind)
  {
    ParseAcceptsFormatted(crc, kind, secret);
  }
}
