/**
 * The two URL helpers the composer depends on: `encodeURIComponent` (for the ASCII
 * strings the sanitiser produces) with its inverse, and splitting a string on a
 * separator character with its inverse, joining.
 */
module Uri {

  import opened Wrappers
  import opened Text

  /** Characters `encodeURIComponent` leaves alone. */
  predicate Unreserved(c: char) {
    ('A' <= c <= 'Z') || ('a' <= c <= 'z') || ('0' <= c <= '9')
    || c == '-' || c == '_' || c == '.' || c == '!' || c == '~' || c == '*'
    || c == '\'' || c == '(' || c == ')'
  }

  function HexDigit(d: nat): (c: char)
    requires d < 16
    ensures ('0' <= c <= '9') || ('A' <= c <= 'F')
  {
    if d < 10 then ('0' as int + d) as char else ('A' as int + d - 10) as char
  }

  predicate IsHexDigit(c: char) {
    ('0' <= c <= '9') || ('A' <= c <= 'F') || ('a' <= c <= 'f')
  }

  function HexValue(c: char): (d: nat)
    requires IsHexDigit(c)
    ensures d < 16
  {
    if '0' <= c <= '9' then c as int - '0' as int
    else if 'A' <= c <= 'F' then c as int - 'A' as int + 10
    else c as int - 'a' as int + 10
  }

  lemma HexValueOfDigit(d: nat)
    requires d < 16
    ensures IsHexDigit(HexDigit(d)) && HexValue(HexDigit(d)) == d
  {
  }

  /** A character that can appear in the output of `encodeURIComponent` on ASCII input. */
  predicate EncodedChar(c: char) {
    Unreserved(c) || c == '%'
  }

  /** One ASCII character, percent-encoded with upper-case hex digits unless unreserved. */
  function EncodeChar(c: char): (r: string)
    requires c as int < 128
    ensures forall i :: 0 <= i < |r| ==> EncodedChar(r[i])
  {
    if Unreserved(c) then [c]
    else ['%', HexDigit(c as int / 16), HexDigit(c as int % 16)]
  }

  /** `encodeURIComponent(s)` for an ASCII string. */
  function EncodeUriComponent(s: string): (r: string)
    requires IsAscii(s)
    ensures forall i :: 0 <= i < |r| ==> EncodedChar(r[i])
  {
    if s == [] then [] else EncodeChar(s[0]) + EncodeUriComponent(s[1..])
  }

  /**
   * `decodeURIComponent(s)` for escapes of ASCII characters. A `%` not followed by two
   * hex digits is a malformed escape (the source throws), and an escape of a byte of
   * 128 or more starts a multi-byte UTF-8 sequence, which this model does not decode.
   */
  function DecodeUriComponent(s: string): (r: Option<string>)
    decreases |s|
  {
    if s == [] then Some([])
    else if s[0] == '%' then
      if |s| >= 3 && IsHexDigit(s[1]) && IsHexDigit(s[2]) && HexValue(s[1]) < 8 then
        match DecodeUriComponent(s[3..])
        case Some(rest) => Some([(HexValue(s[1]) * 16 + HexValue(s[2])) as char] + rest)
        case None => None
      else None
    else
      match DecodeUriComponent(s[1..])
      case Some(rest) => Some([s[0]] + rest)
      case None => None
  }

  /** Decoding undoes encoding: `decodeURIComponent(encodeURIComponent(s)) == s`. */
  lemma {:induction false} DecodeEncode(s: string)
    requires IsAscii(s)
    ensures DecodeUriComponent(EncodeUriComponent(s)) == Some(s)
  {
    if s != [] {
      var c := s[0];
      var e := EncodeUriComponent(s);
      var tail := EncodeUriComponent(s[1..]);
      DecodeEncode(s[1..]);
      assert e == EncodeChar(c) + tail;
      if Unreserved(c) {
        assert e[1..] == tail;
      } else {
        HexValueOfDigit(c as int / 16);
        HexValueOfDigit(c as int % 16);
        assert e[3..] == tail;
        assert ((c as int / 16) * 16 + c as int % 16) as char == c;
      }
      assert s == [c] + s[1..];
    }
  }

  /** Distinct prompts give distinct encoded path segments. */
  lemma EncodeInjective(a: string, b: string)
    requires IsAscii(a) && IsAscii(b)
    requires EncodeUriComponent(a) == EncodeUriComponent(b)
    ensures a == b
  {
    DecodeEncode(a);
    DecodeEncode(b);
  }

  /** `parts.join(sep)` for a non-empty list of parts. */
  function Join(parts: seq<string>, sep: char): string
    requires |parts| > 0
  {
    if |parts| == 1 then parts[0] else parts[0] + [sep] + Join(parts[1..], sep)
  }

  /** `s.split(sep)`: the maximal separator-free pieces, in order. */
  function Split(s: string, sep: char): (r: seq<string>)
    ensures |r| > 0
  {
    if s == [] then [[]]
    else if s[0] == sep then [[]] + Split(s[1..], sep)
    else
      var rest := Split(s[1..], sep);
      [[s[0]] + rest[0]] + rest[1..]
  }

  lemma {:induction false} SplitFree(w: string, sep: char)
    requires sep !in w
    ensures Split(w, sep) == [w]
  {
    if w != [] {
      SplitFree(w[1..], sep);
      assert w == [w[0]] + w[1..];
    }
  }

  lemma {:induction false} SplitAfterPiece(w: string, sep: char, rest: string)
    requires sep !in w
    ensures Split(w + [sep] + rest, sep) == [w] + Split(rest, sep)
  {
    var s := w + [sep] + rest;
    if w == [] {
      assert s == [sep] + rest;
      assert s[1..] == rest;
    } else {
      assert s[1..] == w[1..] + [sep] + rest;
      SplitAfterPiece(w[1..], sep, rest);
      assert w == [w[0]] + w[1..];
    }
  }

  /** Splitting undoes joining when no piece contains the separator. */
  lemma {:induction false} SplitJoin(parts: seq<string>, sep: char)
    requires |parts| > 0
    requires forall i :: 0 <= i < |parts| ==> sep !in parts[i]
    ensures Split(Join(parts, sep), sep) == parts
  {
    if |parts| == 1 {
      SplitFree(parts[0], sep);
    } else {
      SplitJoin(parts[1..], sep);
      SplitAfterPiece(parts[0], sep, Join(parts[1..], sep));
      assert parts == [parts[0]] + parts[1..];
    }
  }

  /** Joining adds no character other than the separator. */
  lemma {:induction false} JoinExcludes(parts: seq<string>, sep: char, c: char)
    requires |parts| > 0 && c != sep
    requires forall i :: 0 <= i < |parts| ==> c !in parts[i]
    ensures c !in Join(parts, sep)
  {
    if |parts| > 1 {
      JoinExcludes(parts[1..], sep, c);
    }
  }
}
