/** Query strings in application/x-www-form-urlencoded form: `urlencode` and `parse_qsl` with strict
    parsing, and what `urlsplit` makes of an URL. */
module FormUrl {
  import opened Tables
  import opened Utf8

  // ------------------------------------------------------------------ splitting

  /** str.find of one character, or the length. */
  function Find(s: string, c: char): (i: nat)
    ensures i <= |s| && (i < |s| ==> s[i] == c) && forall k :: 0 <= k < i ==> s[k] != c
  {
    if s == [] || s[0] == c then 0 else 1 + Find(s[1..], c)
  }

  function SplitOn(s: string, c: char): (fields: seq<string>)
    ensures |fields| >= 1
  {
    var i := Find(s, c);
    if i == |s| then [s] else [s[..i]] + SplitOn(s[i + 1..], c)
  }

  function Join(fields: seq<string>, c: char): string
    requires fields != []
  {
    if |fields| == 1 then fields[0] else fields[0] + [c] + Join(fields[1..], c)
  }

  lemma FindAt(s: string, c: char, rest: string)
    requires c !in s
    ensures Find(s + [c] + rest, c) == |s| && Find(s, c) == |s|
  {
    var t := s + [c] + rest;
    assert t[|s|] == c;
    assert forall k :: 0 <= k < |s| ==> t[k] == s[k] && t[k] in s;
  }

  lemma SplitStep(first: string, c: char, rest: string)
    requires c !in first
    ensures SplitOn(first + [c] + rest, c) == [first] + SplitOn(rest, c)
  {
    var s := first + [c] + rest;
    FindAt(first, c, rest);
    assert s[..|first|] == first && s[|first| + 1..] == rest;
  }

  lemma {:induction false} SplitJoin(fields: seq<string>, c: char)
    requires fields != [] && forall i :: 0 <= i < |fields| ==> c !in fields[i]
    ensures SplitOn(Join(fields, c), c) == fields
  {
    if |fields| == 1 {
      FindAt(fields[0], c, "");
      assert fields == [fields[0]];
    } else {
      var rest := Join(fields[1..], c);
      FindAt(fields[0], c, rest);
      SplitJoin(fields[1..], c);
      SplitStep(fields[0], c, rest);
      assert fields == [fields[0]] + fields[1..];
    }
  }

  lemma {:induction false} JoinAppend(a: seq<string>, b: seq<string>, c: char)
    requires a != [] && b != []
    ensures Join(a + b, c) == Join(a, c) + [c] + Join(b, c)
  {
    if |a| == 1 {
      assert (a + b)[1..] == b;
    } else {
      assert (a + b)[1..] == a[1..] + b;
      JoinAppend(a[1..], b, c);
    }
  }

  // ----------------------------------------------------------- percent-encoding

  predicate Unreserved(b: Byte) {
    || 'A' as int <= b <= 'Z' as int || 'a' as int <= b <= 'z' as int || '0' as int <= b <= '9' as int
    || b == '_' as int || b == '.' as int || b == '-' as int || b == '~' as int
  }

  function HexDigit(d: nat): char
    requires d < 16
  {
    if d < 10 then (d + '0' as int) as char else (d - 10 + 'A' as int) as char
  }

  predicate IsHex(c: char) {
    '0' <= c <= '9' || 'A' <= c <= 'F' || 'a' <= c <= 'f'
  }

  function HexValue(c: char): (d: nat)
    requires IsHex(c)
    ensures d < 16
  {
    if c <= '9' then c as int - '0' as int
    else if c <= 'F' then c as int - 'A' as int + 10
    else c as int - 'a' as int + 10
  }

  function QuoteByte(b: Byte): string {
    if b == 0x20 then "+"
    else if Unreserved(b) then [b as char]
    else ['%', HexDigit(b / 16), HexDigit(b % 16)]
  }

  function QuoteBytes(bs: seq<Byte>): string {
    if bs == [] then [] else QuoteByte(bs[0]) + QuoteBytes(bs[1..])
  }

  /** quote_plus */
  function QuotePlus(s: string): string {
    QuoteBytes(Encode(s))
  }

  predicate PlainChar(c: char) {
    'A' <= c <= 'Z' || 'a' <= c <= 'z' || '0' <= c <= '9' || c in {'_', '.', '-', '~', ' '}
  }

  /** Quoting leaves plain text readable: letters, digits and four signs stay, a space becomes a plus. */
  lemma {:induction false} PlainStays(s: string)
    requires forall i :: 0 <= i < |s| ==> PlainChar(s[i])
    ensures |QuotePlus(s)| == |s| && forall i :: 0 <= i < |s| ==> QuotePlus(s)[i] == if s[i] == ' ' then '+' else s[i]
  {
    if s != [] {
      PlainStays(s[1..]);
      var b := s[0] as int;
      assert PlainChar(s[0]);
      assert EncodeChar(s[0]) == [b];
      assert Encode(s) == [b] + Encode(s[1..]);
      assert QuoteBytes(Encode(s)) == QuoteByte(b) + QuoteBytes(Encode(s)[1..]) && Encode(s)[1..] == Encode(s[1..]);
    }
  }

  /** str.replace("+", " ") */
  function PlusToSpace(s: string): (r: string)
    ensures |r| == |s| && forall i :: 0 <= i < |s| ==> r[i] == if s[i] == '+' then ' ' else s[i]
  {
    seq(|s|, i requires 0 <= i < |s| => if s[i] == '+' then ' ' else s[i])
  }

  predicate Ascii(s: string) {
    forall i :: 0 <= i < |s| ==> s[i] as int < 0x80
  }

  /** unquote_to_bytes of an ASCII text: a percent sign without two hex digits stands for itself. */
  function UnquoteBytes(s: string): seq<Byte>
    requires Ascii(s)
  {
    if s == [] then []
    else if s[0] == '%' && |s| >= 3 && IsHex(s[1]) && IsHex(s[2])
    then [16 * HexValue(s[1]) + HexValue(s[2])] + UnquoteBytes(s[3..])
    else [s[0] as int] + UnquoteBytes(s[1..])
  }

  function AsciiPrefix(s: string): (n: nat)
    ensures n <= |s| && Ascii(s[..n]) && (n < |s| ==> s[n] as int >= 0x80)
  {
    if s != [] && s[0] as int < 0x80 then
      var n := AsciiPrefix(s[1..]);
      assert s[..n + 1] == [s[0]] + s[1..][..n];
      n + 1
    else 0
  }

  /** unquote: runs of ASCII text are decoded one by one, other characters stay. */
  function Unquote(s: string): string
    decreases |s|
  {
    if s == [] then []
    else
      var n := AsciiPrefix(s);
      if n == 0 then [s[0]] + Unquote(s[1..]) else Decode(UnquoteBytes(s[..n])) + Unquote(s[n..])
  }

  // ------------------------------------------------------------- query strings

  type Pairs = seq<(string, string)>

  function Fields(pairs: Pairs): (fields: seq<string>)
    ensures |fields| == |pairs|
    ensures forall i :: 0 <= i < |pairs| ==> fields[i] == QuotePlus(pairs[i].0) + "=" + QuotePlus(pairs[i].1)
  {
    seq(|pairs|, i requires 0 <= i < |pairs| => QuotePlus(pairs[i].0) + "=" + QuotePlus(pairs[i].1))
  }

  /** urlencode */
  function UrlEncode(pairs: Pairs): string {
    if pairs == [] then "" else Join(Fields(pairs), '&')
  }

  function ParseField(field: string): Option<(string, string)> {
    var i := Find(field, '=');
    if i == |field| then None
    else Some((Unquote(PlusToSpace(field[..i])), Unquote(PlusToSpace(field[i + 1..]))))
  }

  function ParseFields(fields: seq<string>): Option<Pairs> {
    if fields == [] then Some([])
    else
      match (ParseField(fields[0]), ParseFields(fields[1..]))
      case (Some(pair), Some(pairs)) => Some([pair] + pairs)
      case _ => None
  }

  /** parse_qsl(keep_blank_values=True, strict_parsing=True); None where it raises. */
  function ParseQsl(query: string): Option<Pairs> {
    if query == "" then Some([]) else ParseFields(SplitOn(query, '&'))
  }

  // ----------------------------------------------------------------- round trip

  /** The characters percent-encoding produces. */
  predicate Quoted(s: string) {
    forall i :: 0 <= i < |s| ==> s[i] == '+' || s[i] == '%' || (s[i] as int < 0x80 && Unreserved(s[i] as int))
  }

  lemma {:induction false} QuoteBytesQuoted(bs: seq<Byte>)
    ensures Quoted(QuoteBytes(bs))
  {
    if bs != [] { QuoteBytesQuoted(bs[1..]); }
  }

  lemma PlusToSpaceConcat(a: string, b: string)
    ensures PlusToSpace(a + b) == PlusToSpace(a) + PlusToSpace(b)
  {
  }

  lemma UnquoteOne(b: Byte, rest: string)
    requires Ascii(rest)
    ensures var s := PlusToSpace(QuoteByte(b)) + rest;
      Ascii(s) && UnquoteBytes(s) == [b] + UnquoteBytes(rest)
  {
    var q := PlusToSpace(QuoteByte(b));
    var s := q + rest;
    if b == 0x20 || Unreserved(b) {
      assert s[1..] == rest;
    } else {
      assert b == 16 * (b / 16) + b % 16;
      assert s[3..] == rest;
    }
  }

  lemma {:induction false} UnquoteQuoted(bs: seq<Byte>)
    ensures Ascii(PlusToSpace(QuoteBytes(bs))) && UnquoteBytes(PlusToSpace(QuoteBytes(bs))) == bs
  {
    if bs != [] {
      UnquoteQuoted(bs[1..]);
      UnquoteOne(bs[0], PlusToSpace(QuoteBytes(bs[1..])));
      PlusToSpaceConcat(QuoteByte(bs[0]), QuoteBytes(bs[1..]));
      assert bs == [bs[0]] + bs[1..];
    }
  }

  lemma UnquoteAscii(s: string)
    requires Ascii(s)
    ensures Unquote(s) == Decode(UnquoteBytes(s))
  {
    if s != [] {
      assert AsciiPrefix(s) == |s|;
      assert s[..|s|] == s && s[|s|..] == [];
    }
  }

  /** Percent-encoding is undone by decoding, for every text. */
  lemma UnquoteQuotePlus(s: string)
    ensures Unquote(PlusToSpace(QuotePlus(s))) == s
  {
    UnquoteQuoted(Encode(s));
    UnquoteAscii(PlusToSpace(QuotePlus(s)));
    DecodeEncode(s);
  }

  lemma FieldSplits(k: string, v: string)
    requires '=' !in k
    ensures ParseField(k + "=" + v) == Some((Unquote(PlusToSpace(k)), Unquote(PlusToSpace(v))))
  {
    var field := k + "=" + v;
    FindAt(k, '=', v);
    assert field[..|k|] == k && field[|k| + 1..] == v;
  }

  lemma QuotedAvoids(s: string)
    requires Quoted(s)
    ensures '=' !in s && '&' !in s
  {
  }

  lemma ParseOneField(key: string, value: string)
    ensures ParseField(QuotePlus(key) + "=" + QuotePlus(value)) == Some((key, value))
    ensures '&' !in QuotePlus(key) + "=" + QuotePlus(value)
  {
    var k, v := QuotePlus(key), QuotePlus(value);
    QuoteBytesQuoted(Encode(key));
    QuoteBytesQuoted(Encode(value));
    QuotedAvoids(k);
    QuotedAvoids(v);
    FieldSplits(k, v);
    UnquoteQuotePlus(key);
    UnquoteQuotePlus(value);
  }

  lemma {:induction false} ParseAllFields(pairs: Pairs)
    ensures ParseFields(Fields(pairs)) == Some(pairs)
    ensures forall i :: 0 <= i < |pairs| ==> '&' !in Fields(pairs)[i]
  {
    if pairs != [] {
      assert Fields(pairs)[1..] == Fields(pairs[1..]);
      ParseAllFields(pairs[1..]);
      ParseOneField(pairs[0].0, pairs[0].1);
      assert pairs == [pairs[0]] + pairs[1..];
      forall i | 0 <= i < |pairs| ensures '&' !in Fields(pairs)[i] {
        if i > 0 { assert Fields(pairs)[i] == Fields(pairs[1..])[i - 1]; }
      }
    }
  }

  /** Parsing what was encoded gives the pairs back, whatever keys and values they hold. */
  lemma ParseEncoded(pairs: Pairs)
    ensures ParseQsl(UrlEncode(pairs)) == Some(pairs)
    ensures pairs != [] ==> UrlEncode(pairs) != ""
  {
    if pairs != [] {
      ParseAllFields(pairs);
      SplitJoin(Fields(pairs), '&');
      JoinHasEquals(pairs);
    }
  }

  lemma JoinHasEquals(pairs: Pairs)
    requires pairs != []
    ensures UrlEncode(pairs) != ""
  {
    assert Fields(pairs)[0] != "";
  }

  lemma EncodeAppend(a: Pairs, b: Pairs)
    requires a != [] && b != []
    ensures UrlEncode(a + b) == UrlEncode(a) + "&" + UrlEncode(b)
  {
    assert Fields(a + b) == Fields(a) + Fields(b);
    JoinAppend(Fields(a), Fields(b), '&');
  }

  /** The characters of an encoded query. */
  predicate QueryChar(c: char) {
    c == '+' || c == '%' || c == '&' || c == '=' || (c as int < 0x80 && Unreserved(c as int))
  }

  predicate QueryChars(s: string) {
    forall c :: c in s ==> QueryChar(c)
  }

  lemma {:induction false} JoinQueryChars(fields: seq<string>)
    requires fields != [] && forall i :: 0 <= i < |fields| ==> QueryChars(fields[i])
    ensures QueryChars(Join(fields, '&'))
  {
    if |fields| > 1 { JoinQueryChars(fields[1..]); }
  }

  lemma EncodedChars(pairs: Pairs)
    ensures QueryChars(UrlEncode(pairs))
  {
    forall i | 0 <= i < |pairs| ensures QueryChars(Fields(pairs)[i]) {
      QuoteBytesQuoted(Encode(pairs[i].0));
      QuoteBytesQuoted(Encode(pairs[i].1));
    }
    if pairs != [] { JoinQueryChars(Fields(pairs)); }
  }

  // ------------------------------------------------------------------- urlsplit

  datatype Url = Url(scheme: string, netloc: string, path: string, query: string, fragment: string)

  predicate SchemeChar(c: char) {
    'a' <= c <= 'z' || 'A' <= c <= 'Z' || '0' <= c <= '9' || c == '+' || c == '-' || c == '.'
  }

  predicate Letter(c: char) {
    'a' <= c <= 'z' || 'A' <= c <= 'Z'
  }

  /** Where the scheme ends, or 0 when there is none. */
  function SchemeEnd(s: string): (i: nat)
    ensures i <= |s|
  {
    var i := Find(s, ':');
    if 0 < i < |s| && Letter(s[0]) && (forall k :: 0 <= k < i ==> SchemeChar(s[k])) then i else 0
  }

  /** First of "/", "?", "#", or the length. */
  function NetlocEnd(s: string): (i: nat)
    ensures i <= |s|
  {
    if s == [] || s[0] == '/' || s[0] == '?' || s[0] == '#' then 0 else 1 + NetlocEnd(s[1..])
  }

  predicate StartsWith(s: string, prefix: string) {
    |prefix| <= |s| && s[..|prefix|] == prefix
  }

  /** Path, query and fragment of what follows the authority. */
  function SplitTarget(s: string): (string, string, string) {
    var h := Find(s, '#');
    var fragment := if h < |s| then s[h + 1..] else "";
    var q := Find(s[..h], '?');
    (s[..h][..q], if q < h then s[..h][q + 1..] else "", fragment)
  }

  /** urlsplit of a text without control characters or leading space; schemes keep their case. */
  function UrlSplit(s: string): Url {
    var i := SchemeEnd(s);
    var rest := if i > 0 then s[i + 1..] else s;
    var n := if StartsWith(rest, "//") then 2 + NetlocEnd(rest[2..]) else 0;
    var (path, query, fragment) := SplitTarget(rest[n..]);
    Url(s[..i], if n > 0 then rest[2..n] else "", path, query, fragment)
  }

  lemma SplitTargetOf(path: string, query: string)
    requires '#' !in path && '?' !in path && '#' !in query
    ensures SplitTarget(path + "?" + query) == (path, query, "")
    ensures SplitTarget(path) == (path, "", "")
  {
    var s := path + "?" + query;
    assert '#' !in s;
    FindAt(s, '#', "");
    FindAt(path, '?', query);
    FindAt(path, '#', "");
    assert s[..|s|] == s && s[..|path|] == path && s[|path| + 1..] == query;
    assert path[..|path|] == path;
  }
}
