/** The form encoding behind Python 2's `urllib.urlencode` and the reading of
    it by `urlparse.parse_qs`: the client uses the first to build the challenge
    query string and the verification request body. */
module FormEncoding {
  import opened Wrappers
  import opened Strings

  /** A character of a Python 2 byte string (`str`). */
  type Byte = c: char | c as int < 256 witness 'a'

  /** A Python 2 byte string. */
  type Text = seq<Byte>

  /** The characters `quote_plus` leaves alone: letters, digits and "_.-". */
  predicate IsUnreserved(c: char) {
    || 'A' <= c <= 'Z' || 'a' <= c <= 'z' || '0' <= c <= '9'
    || c == '_' || c == '.' || c == '-'
  }

  /** The characters `quote_plus` can produce. */
  predicate IsEncodedChar(c: char) {
    IsUnreserved(c) || c == '+' || c == '%'
  }

  const HexDigits: string := "0123456789ABCDEF"

  predicate IsHexDigit(c: char) {
    '0' <= c <= '9' || 'A' <= c <= 'F' || 'a' <= c <= 'f'
  }

  /** The value of a hexadecimal digit, in either case. */
  function HexValue(c: char): (n: nat)
    requires IsHexDigit(c)
    ensures n < 16
  {
    if '0' <= c <= '9' then c as int - '0' as int
    else if 'A' <= c <= 'F' then c as int - 'A' as int + 10
    else c as int - 'a' as int + 10
  }

  /** `quote_plus` on one byte: unreserved bytes stay, a space becomes "+",
      every other byte becomes "%" and two upper-case hexadecimal digits. */
  function QuoteByte(c: Byte): string
  {
    if IsUnreserved(c) then [c]
    else if c == ' ' then "+"
    else ['%', HexDigits[c as int / 16], HexDigits[c as int % 16]]
  }

  /** `urllib.quote_plus(s)`. */
  function QuotePlus(s: Text): (r: string)
    ensures forall i :: 0 <= i < |r| ==> IsEncodedChar(r[i])
    ensures r == [] <==> s == []
  {
    if s == [] then [] else QuoteByte(s[0]) + QuotePlus(s[1..])
  }

  /** `urllib.unquote_plus(s)`: "+" becomes a space, "%" followed by two
      hexadecimal digits becomes the byte they spell, and anything else,
      including a "%" not followed by two digits, is kept. */
  function UnquotePlus(s: string): string
  {
    if s == [] then []
    else if s[0] == '+' then " " + UnquotePlus(s[1..])
    else if s[0] == '%' && |s| >= 3 && IsHexDigit(s[1]) && IsHexDigit(s[2]) then
      [(HexValue(s[1]) * 16 + HexValue(s[2])) as char] + UnquotePlus(s[3..])
    else [s[0]] + UnquotePlus(s[1..])
  }

  /** Decoding the encoding of one byte gives that byte back and reads no further. */
  lemma UnquoteQuoteByte(c: Byte, rest: string)
    ensures UnquotePlus(QuoteByte(c) + rest) == [c] + UnquotePlus(rest)
  {
    var s := QuoteByte(c) + rest;
    if IsUnreserved(c) {
      assert s[0] == c && s[1..] == rest;
    } else if c == ' ' {
      assert s[0] == '+' && s[1..] == rest;
    } else {
      var hi, lo := c as int / 16, c as int % 16;
      assert s[0] == '%' && s[1] == HexDigits[hi] && s[2] == HexDigits[lo] && s[3..] == rest;
      HexDigitValue(hi);
      HexDigitValue(lo);
    }
  }

  /** A hexadecimal digit reads back as the value it was written for. */
  lemma HexDigitValue(n: nat)
    requires n < 16
    ensures IsHexDigit(HexDigits[n]) && HexValue(HexDigits[n]) == n
  {
  }

  /** `unquote_plus` undoes `quote_plus`. */
  lemma {:induction false} UnquoteQuote(s: Text)
    ensures UnquotePlus(QuotePlus(s)) == s
  {
    if s != [] {
      UnquoteQuoteByte(s[0], QuotePlus(s[1..]));
      UnquoteQuote(s[1..]);
    }
  }

  /** One "name=value" field of an encoded form. */
  function EncodeField(name: Text, value: Text): (r: string)
    ensures NoneOf(r, FieldSeparators)
  {
    QuotePlus(name) + "=" + QuotePlus(value)
  }

  /** `urllib.urlencode(pairs)`: the fields joined by "&", in the given order. */
  function UrlEncode(pairs: seq<(Text, Text)>): (r: string)
    ensures forall i :: 0 <= i < |r| ==> IsEncodedChar(r[i]) || r[i] == '=' || r[i] == '&'
  {
    if pairs == [] then ""
    else if |pairs| == 1 then EncodeField(pairs[0].0, pairs[0].1)
    else EncodeField(pairs[0].0, pairs[0].1) + "&" + UrlEncode(pairs[1..])
  }

  const FieldSeparators: set<char> := {'&', ';'}

  /** The fields of a query string: the text between "&" and ";" separators. */
  function Fields(q: string): (fields: seq<string>)
    ensures |fields| > 0
    decreases |q|
  {
    var i := IndexOfAny(q, FieldSeparators);
    if i == |q| then [q] else [q[..i]] + Fields(q[i + 1..])
  }

  /** One field as `parse_qsl` reads it: split at the first "=" and decoded;
      a field without "=" or with an empty value is dropped. */
  function ParseField(field: string): Option<(string, string)>
  {
    var j := IndexOfAny(field, {'='});
    if j == |field| || j + 1 == |field| then None
    else Some((UnquotePlus(field[..j]), UnquotePlus(field[j + 1..])))
  }

  function ParseFields(fields: seq<string>): seq<(string, string)>
  {
    if fields == [] then []
    else
      (match ParseField(fields[0]) case None => [] case Some(p) => [p])
      + ParseFields(fields[1..])
  }

  /** `urlparse.parse_qsl(q)` (blank values not kept): the decoded pairs in order. */
  function ParseQsl(q: string): seq<(string, string)>
  {
    ParseFields(Fields(q))
  }

  /** The values recorded for `name`, in order: `parse_qs(q)[name]`, where an
      empty answer means `name` is not a key of `parse_qs(q)`. */
  function Lookup(pairs: seq<(string, string)>, name: string): seq<string>
  {
    if pairs == [] then []
    else (if pairs[0].0 == name then [pairs[0].1] else []) + Lookup(pairs[1..], name)
  }

  function QueryValues(q: string, name: string): seq<string>
  {
    Lookup(ParseQsl(q), name)
  }

  /** A byte string seen as text. */
  function AsString(t: Text): string { t }

  /** The pairs `parse_qsl` keeps: those with a non-empty value. */
  function NonBlank(pairs: seq<(Text, Text)>): seq<(string, string)>
  {
    if pairs == [] then []
    else
      var (name, value) := pairs[0];
      (if value == [] then [] else [(AsString(name), AsString(value))]) + NonBlank(pairs[1..])
  }

  /** An encoded field reads back as the pair it encodes, unless its value is empty. */
  lemma ParseEncodedField(name: Text, value: Text)
    ensures ParseField(EncodeField(name, value))
         == if value == [] then None else Some((AsString(name), AsString(value)))
  {
    var n, v := QuotePlus(name), QuotePlus(value);
    assert NoneOf(n, {'='});
    ParseFieldAt(n, v);
    UnquoteQuote(name);
    UnquoteQuote(value);
  }

  /** A field whose name holds no "=" splits at the "=" after the name. */
  lemma ParseFieldAt(n: string, v: string)
    requires NoneOf(n, {'='})
    ensures ParseField(n + "=" + v) == if v == [] then None else Some((UnquotePlus(n), UnquotePlus(v)))
  {
    var field := n + ("=" + v);
    assert n + "=" + v == field;
    IndexOfAnyAfter(n, "=" + v, {'='});
    assert field[..|n|] == n && field[|n| + 1..] == v;
  }

  /** A field free of separators is a single field. */
  lemma FieldsOfField(field: string)
    requires NoneOf(field, FieldSeparators)
    ensures Fields(field) == [field]
  {
  }

  /** A field free of separators followed by "&" comes first, before the rest's fields. */
  lemma FieldsOfJoined(field: string, rest: string)
    requires NoneOf(field, FieldSeparators)
    ensures Fields(field + "&" + rest) == [field] + Fields(rest)
  {
    var q := field + ("&" + rest);
    assert field + "&" + rest == q;
    IndexOfAnyAfter(field, "&" + rest, FieldSeparators);
    assert q[..|field|] == field && q[|field| + 1..] == rest;
  }

  lemma ParseFieldsCons(field: string, fields: seq<string>)
    ensures ParseFields([field] + fields)
         == (match ParseField(field) case None => [] case Some(p) => [p]) + ParseFields(fields)
  {
  }

  /** `parse_qsl` reads back what `urlencode` wrote, except the pairs whose value is empty. */
  lemma {:induction false} ParseUrlEncode(pairs: seq<(Text, Text)>)
    ensures ParseQsl(UrlEncode(pairs)) == NonBlank(pairs)
  {
    if pairs != [] {
      var (name, value) := pairs[0];
      var field := EncodeField(name, value);
      ParseEncodedField(name, value);
      if |pairs| == 1 {
        FieldsOfField(field);
        ParseFieldsCons(field, []);
        assert [field] + [] == [field];
        assert UrlEncode(pairs) == field;
        assert NonBlank(pairs[1..]) == [];
      } else {
        var rest := UrlEncode(pairs[1..]);
        FieldsOfJoined(field, rest);
        ParseFieldsCons(field, Fields(rest));
        ParseUrlEncode(pairs[1..]);
      }
    }
  }
}
