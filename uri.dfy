/** The two URL encoders the scripts rely on: `encodeURIComponent`, used to put a record
    id into a request path, and the application/x-www-form-urlencoded serializer behind
    `URLSearchParams.prototype.toString`. Both encode a character as the percent-escaped
    bytes of its UTF-8 form. */
module Uri {
  import opened JsValues
  import opened Text

  predicate IsAsciiAlnum(c: char) {
    IsAsciiUpper(c) || IsAsciiLower(c) || IsDigit(c)
  }

  /** The characters `encodeURIComponent` leaves as they are. */
  predicate IsUriUnreserved(c: char) {
    IsAsciiAlnum(c) || c == '-' || c == '_' || c == '.' || c == '!' || c == '~'
    || c == '*' || c == '\'' || c == '(' || c == ')'
  }

  const HEX_DIGITS: string := "0123456789ABCDEF"

  predicate IsHexDigit(c: char) {
    IsDigit(c) || 'A' <= c <= 'F'
  }

  /** The UTF-8 encoding of one Unicode scalar value. */
  function Utf8(c: char): (bytes: seq<nat>)
    ensures 1 <= |bytes| <= 4
    ensures forall i :: 0 <= i < |bytes| ==> bytes[i] < 256
    ensures bytes[0] < 0x80 <==> (c as int) < 0x80
  {
    var n := c as int;
    if n < 0x80 then [n]
    else if n < 0x800 then [0xC0 + n / 64, 0x80 + n % 64]
    else if n < 0x10000 then [0xE0 + n / 4096, 0x80 + (n / 64) % 64, 0x80 + n % 64]
    else [0xF0 + n / 262144, 0x80 + (n / 4096) % 64, 0x80 + (n / 64) % 64, 0x80 + n % 64]
  }

  /** `%XX` with upper-case hexadecimal digits. */
  function PercentByte(b: nat): (r: string)
    requires b < 256
    ensures |r| == 3 && r[0] == '%' && IsHexDigit(r[1]) && IsHexDigit(r[2])
  {
    ['%', HEX_DIGITS[b / 16], HEX_DIGITS[b % 16]]
  }

  function PercentBytes(bytes: seq<nat>): (r: string)
    requires forall i :: 0 <= i < |bytes| ==> bytes[i] < 256
    ensures |r| == 3 * |bytes|
    ensures forall i :: 0 <= i < |r| ==> r[i] == '%' || IsHexDigit(r[i])
  {
    if bytes == [] then [] else PercentByte(bytes[0]) + PercentBytes(bytes[1..])
  }

  /** The output alphabet of `encodeURIComponent`. */
  predicate IsUriComponentChar(c: char) {
    IsUriUnreserved(c) || c == '%' || IsHexDigit(c)
  }

  function EncodeUriChar(c: char): (r: string)
    ensures r != []
    ensures forall i :: 0 <= i < |r| ==> IsUriComponentChar(r[i])
  {
    if IsUriUnreserved(c) then [c] else PercentBytes(Utf8(c))
  }

  /** `encodeURIComponent(s)`. */
  function EncodeUriComponent(s: string): (r: string)
    ensures forall i :: 0 <= i < |r| ==> IsUriComponentChar(r[i])
    ensures |r| >= |s|
  {
    if s == [] then [] else EncodeUriChar(s[0]) + EncodeUriComponent(s[1..])
  }

  /** A string made of unreserved characters, such as a numeric id, is its own encoding. */
  lemma {:induction false} EncodeUnreservedIsIdentity(s: string)
    requires forall i :: 0 <= i < |s| ==> IsUriUnreserved(s[i])
    ensures EncodeUriComponent(s) == s
  {
    if s != [] {
      EncodeUnreservedIsIdentity(s[1..]);
    }
  }

  /** An encoded component never contains a path or query delimiter, so it stays one
      path segment. */
  lemma EncodedHasNoDelimiter(s: string)
    ensures forall i :: 0 <= i < |EncodeUriComponent(s)| ==>
      EncodeUriComponent(s)[i] !in {'/', '?', '#', '&', '='}
  {
    var r := EncodeUriComponent(s);
    forall i | 0 <= i < |r|
      ensures r[i] !in {'/', '?', '#', '&', '='}
    {
      OutputCharIsNotDelimiter(r[i]);
    }
  }

  lemma OutputCharIsNotDelimiter(c: char)
    requires IsUriComponentChar(c)
    ensures c != '/' && c != '?' && c != '#' && c != '&' && c != '='
  {
  }

  /** The characters the form-urlencoded serializer leaves as they are. */
  predicate IsFormSafe(c: char) {
    IsAsciiAlnum(c) || c == '*' || c == '-' || c == '.' || c == '_'
  }

  function FormEncodeChar(c: char): (r: string)
    ensures r != []
  {
    if c == ' ' then "+" else if IsFormSafe(c) then [c] else PercentBytes(Utf8(c))
  }

  function FormEncode(s: string): string {
    if s == [] then [] else FormEncodeChar(s[0]) + FormEncode(s[1..])
  }

  /** `name=value` for one query parameter. */
  function SerializePair(p: (string, string)): (r: string)
    ensures r != []
  {
    FormEncode(p.0) + "=" + FormEncode(p.1)
  }

  /** `URLSearchParams.prototype.toString`: the encoded pairs joined by `&`. */
  function SerializeParams(params: seq<(string, string)>): (r: string)
    ensures r == [] <==> params == []
  {
    if params == [] then []
    else if |params| == 1 then SerializePair(params[0])
    else SerializePair(params[0]) + "&" + SerializeParams(params[1..])
  }
}
