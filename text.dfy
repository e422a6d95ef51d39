/**
 * String operations the JavaScript source relies on: `toLowerCase` (ASCII part),
 * `includes`, the `\s` class and `trim`, and decimal rendering of numbers.
 */
module Text {

  import opened Wrappers

  /** `toLowerCase` restricted to ASCII letters; every other character is kept. */
  function LowerChar(c: char): (r: char)
    ensures 'A' <= c <= 'Z' ==> r as int == c as int + 32
    ensures !('A' <= c <= 'Z') ==> r == c
  {
    if 'A' <= c <= 'Z' then (c as int + 32) as char else c
  }

  function ToLower(s: string): (r: string)
    ensures |r| == |s|
    ensures forall i :: 0 <= i < |s| ==> r[i] == LowerChar(s[i])
  {
    seq(|s|, i requires 0 <= i < |s| => LowerChar(s[i]))
  }

  predicate StartsWith(s: string, prefix: string) {
    |prefix| <= |s| && s[..|prefix|] == prefix
  }

  /** `sub` is spelled by the window of `s` starting at `i`. */
  predicate OccursAt(s: string, sub: string, i: int) {
    0 <= i && i + |sub| <= |s| && s[i..i + |sub|] == sub
  }

  /** `s.includes(sub)`: some window of `s` spells `sub`. */
  predicate Contains(s: string, sub: string)
    decreases |s|
  {
    StartsWith(s, sub) || (|s| > 0 && Contains(s[1..], sub))
  }

  /** `Contains` agrees with the positional definition of a substring. */
  lemma {:induction false} ContainsAt(s: string, sub: string)
    ensures Contains(s, sub) <==> exists i :: OccursAt(s, sub, i)
    decreases |s|
  {
    if |s| > 0 {
      ContainsAt(s[1..], sub);
      if Contains(s[1..], sub) {
        var i :| OccursAt(s[1..], sub, i);
        assert s[i + 1..i + 1 + |sub|] == s[1..][i..i + |sub|];
        assert OccursAt(s, sub, i + 1);
      }
      if StartsWith(s, sub) {
        assert OccursAt(s, sub, 0);
      }
      if exists i :: OccursAt(s, sub, i) {
        var i :| OccursAt(s, sub, i);
        if i > 0 {
          assert s[1..][i - 1..i - 1 + |sub|] == s[i..i + |sub|];
          assert OccursAt(s[1..], sub, i - 1);
        } else {
          assert s[..|sub|] == sub;
        }
      }
    } else {
      if StartsWith(s, sub) {
        assert OccursAt(s, sub, 0);
      }
      if exists i :: OccursAt(s, sub, i) {
        var i :| OccursAt(s, sub, i);
        assert |sub| == 0 && sub == [];
        assert StartsWith(s, sub);
      }
    }
  }

  /** A window of `s` at a known position witnesses `Contains`. */
  lemma ContainsWitness(s: string, sub: string, i: nat)
    requires OccursAt(s, sub, i)
    ensures Contains(s, sub)
  {
    ContainsAt(s, sub);
  }

  /** A string shorter than the pattern cannot contain it. */
  lemma ShorterLacks(s: string, sub: string)
    requires |s| < |sub|
    ensures !Contains(s, sub)
  {
    ContainsAt(s, sub);
  }

  /** The characters of JavaScript's `\s` class; `trim` strips exactly these. */
  predicate IsJsSpace(c: char) {
    var n := c as int;
    (9 <= n <= 13) || n == 0x20 || n == 0xA0 || n == 0x1680 || (0x2000 <= n <= 0x200A)
    || n == 0x2028 || n == 0x2029 || n == 0x202F || n == 0x205F || n == 0x3000 || n == 0xFEFF
  }

  predicate IsAscii(s: string) {
    forall i :: 0 <= i < |s| ==> s[i] as int < 128
  }

  lemma AsciiConcat(a: string, b: string)
    requires IsAscii(a) && IsAscii(b)
    ensures IsAscii(a + b)
  {
    assert forall i :: 0 <= i < |a + b| ==> (a + b)[i] == if i < |a| then a[i] else b[i - |a|];
  }

  /**
   * JavaScript's `length`: the number of UTF-16 code units. A character outside the
   * Basic Multilingual Plane is a surrogate pair and counts twice.
   */
  function Utf16Length(s: string): (r: nat)
    ensures |s| <= r <= 2 * |s|
  {
    if s == [] then 0 else (if s[0] as int > 0xFFFF then 2 else 1) + Utf16Length(s[1..])
  }

  /** The UTF-16 length equals the character count exactly when every character is in the BMP. */
  lemma {:induction false} Utf16LengthBmp(s: string)
    ensures Utf16Length(s) == |s| <==> forall i :: 0 <= i < |s| ==> s[i] as int <= 0xFFFF
  {
    if s != [] {
      Utf16LengthBmp(s[1..]);
      assert forall i :: 1 <= i < |s| ==> s[i] == s[1..][i - 1];
    }
  }

  /** Drops the leading run of whitespace. */
  function TrimStart(s: string): (r: string)
    ensures |r| <= |s| && r == s[|s| - |r|..]
    ensures r == [] || !IsJsSpace(r[0])
    decreases |s|
  {
    if |s| > 0 && IsJsSpace(s[0]) then TrimStart(s[1..]) else s
  }

  /** What `TrimStart` drops is all whitespace. */
  lemma {:induction false} TrimStartDropsBlanks(s: string)
    ensures forall i :: 0 <= i < |s| - |TrimStart(s)| ==> IsJsSpace(s[i])
    decreases |s|
  {
    if |s| > 0 && IsJsSpace(s[0]) {
      TrimStartDropsBlanks(s[1..]);
      assert forall i :: 1 <= i < |s| - |TrimStart(s)| ==> s[i] == s[1..][i - 1];
    }
  }

  /** Drops the trailing run of whitespace. */
  function TrimEnd(s: string): (r: string)
    ensures |r| <= |s| && r == s[..|r|]
    ensures r == [] || !IsJsSpace(r[|r| - 1])
    decreases |s|
  {
    if |s| > 0 && IsJsSpace(s[|s| - 1]) then TrimEnd(s[..|s| - 1]) else s
  }

  /** What `TrimEnd` drops is all whitespace. */
  lemma {:induction false} TrimEndDropsBlanks(s: string)
    ensures forall i :: |TrimEnd(s)| <= i < |s| ==> IsJsSpace(s[i])
    decreases |s|
  {
    if |s| > 0 && IsJsSpace(s[|s| - 1]) {
      TrimEndDropsBlanks(s[..|s| - 1]);
    }
  }

  /** `s.trim()`: the longest infix with no whitespace at either end. */
  function Trim(s: string): (r: string)
    ensures r == [] || (!IsJsSpace(r[0]) && !IsJsSpace(r[|r| - 1]))
    ensures OccursAt(s, r, |s| - |TrimStart(s)|)
  {
    var t := TrimStart(s);
    var r := TrimEnd(t);
    assert r == s[|s| - |t|..|s| - |t| + |r|];
    r
  }

  /** The characters of `s` that are not whitespace, in order. */
  function NonSpace(s: string): (r: string)
    ensures |r| <= |s|
    ensures forall i :: 0 <= i < |r| ==> !IsJsSpace(r[i])
  {
    if s == [] then [] else (if IsJsSpace(s[0]) then [] else [s[0]]) + NonSpace(s[1..])
  }

  lemma {:induction false} NonSpaceAppend(a: string, b: string)
    ensures NonSpace(a + b) == NonSpace(a) + NonSpace(b)
    decreases |a|
  {
    if a == [] {
      assert a + b == b;
    } else {
      assert (a + b)[1..] == a[1..] + b;
      NonSpaceAppend(a[1..], b);
    }
  }

  lemma {:induction false} NonSpaceBlank(s: string)
    requires forall i :: 0 <= i < |s| ==> IsJsSpace(s[i])
    ensures NonSpace(s) == []
    decreases |s|
  {
    if s != [] {
      assert forall i :: 0 <= i < |s| - 1 ==> s[1..][i] == s[i + 1];
      NonSpaceBlank(s[1..]);
    }
  }

  /** Dropping leading whitespace keeps every other character. */
  lemma NonSpaceTrimStart(s: string)
    ensures NonSpace(TrimStart(s)) == NonSpace(s)
  {
    var t := TrimStart(s);
    TrimStartDropsBlanks(s);
    assert s == s[..|s| - |t|] + t;
    NonSpaceAppend(s[..|s| - |t|], t);
    NonSpaceBlank(s[..|s| - |t|]);
  }

  /** Dropping trailing whitespace keeps every other character. */
  lemma NonSpaceTrimEnd(t: string)
    ensures NonSpace(TrimEnd(t)) == NonSpace(t)
  {
    var r := TrimEnd(t);
    TrimEndDropsBlanks(t);
    assert t == r + t[|r|..];
    NonSpaceAppend(r, t[|r|..]);
    NonSpaceBlank(t[|r|..]);
  }

  /** `trim()` drops whitespace only: the other characters survive in order. */
  lemma NonSpaceTrim(s: string)
    ensures NonSpace(Trim(s)) == NonSpace(s)
  {
    NonSpaceTrimStart(s);
    NonSpaceTrimEnd(TrimStart(s));
    assert Trim(s) == TrimEnd(TrimStart(s));
  }

  /**
   * The words of `s` still to come when `cur` is the word being read: the maximal runs
   * of non-whitespace characters, in order. A whitespace character ends the current word.
   */
  function WordsFrom(s: string, cur: string): seq<string>
    decreases |s|
  {
    if s == [] then (if cur == [] then [] else [cur])
    else if IsJsSpace(s[0]) then (if cur == [] then [] else [cur]) + WordsFrom(s[1..], [])
    else WordsFrom(s[1..], cur + [s[0]])
  }

  /** The words of `s`: its maximal runs of non-whitespace characters, in order. */
  function Words(s: string): seq<string> {
    WordsFrom(s, [])
  }

  /** Leading whitespace does not change what is read between words. */
  lemma {:induction false} WordsFromTrimStart(s: string)
    ensures WordsFrom(TrimStart(s), []) == WordsFrom(s, [])
    decreases |s|
  {
    if |s| > 0 && IsJsSpace(s[0]) {
      WordsFromTrimStart(s[1..]);
    }
  }

  /** A string of whitespace holds no words. */
  lemma {:induction false} WordsFromBlank(b: string)
    requires forall i :: 0 <= i < |b| ==> IsJsSpace(b[i])
    ensures WordsFrom(b, []) == []
    decreases |b|
  {
    if b != [] {
      assert forall i :: 0 <= i < |b| - 1 ==> b[1..][i] == b[i + 1];
      WordsFromBlank(b[1..]);
    }
  }

  /** Trailing whitespace only ends the word being read. */
  lemma {:induction false} WordsFromBlankSuffix(a: string, b: string, cur: string)
    requires forall i :: 0 <= i < |b| ==> IsJsSpace(b[i])
    ensures WordsFrom(a + b, cur) == WordsFrom(a, cur)
    decreases |a|
  {
    if a == [] {
      assert a + b == b;
      if b != [] {
        assert forall i :: 0 <= i < |b| - 1 ==> b[1..][i] == b[i + 1];
        WordsFromBlank(b[1..]);
      }
    } else {
      assert (a + b)[1..] == a[1..] + b;
      if IsJsSpace(a[0]) {
        WordsFromBlankSuffix(a[1..], b, []);
      } else {
        WordsFromBlankSuffix(a[1..], b, cur + [a[0]]);
      }
    }
  }

  /** Dropping trailing whitespace keeps the words. */
  lemma WordsTrimEnd(t: string)
    ensures Words(TrimEnd(t)) == Words(t)
  {
    var r := TrimEnd(t);
    TrimEndDropsBlanks(t);
    assert t == r + t[|r|..];
    WordsFromBlankSuffix(r, t[|r|..], []);
  }

  /** `trim()` keeps the words. */
  lemma WordsTrim(s: string)
    ensures Words(Trim(s)) == Words(s)
  {
    WordsFromTrimStart(s);
    WordsTrimEnd(TrimStart(s));
    assert Trim(s) == TrimEnd(TrimStart(s));
  }

  /** `s.trim()` is empty exactly when every character of `s` is whitespace. */
  lemma {:induction false} TrimEmptyIffBlank(s: string)
    ensures Trim(s) == [] <==> forall i :: 0 <= i < |s| ==> IsJsSpace(s[i])
    decreases |s|
  {
    var t := TrimStart(s);
    if |s| > 0 && IsJsSpace(s[0]) {
      TrimEmptyIffBlank(s[1..]);
      assert Trim(s) == Trim(s[1..]);
      assert (forall i :: 0 <= i < |s| ==> IsJsSpace(s[i]))
         <==> (forall i :: 0 <= i < |s| - 1 ==> IsJsSpace(s[1..][i]));
    } else if |s| > 0 {
      assert t == s;
      TrimEndDropsBlanks(t);
      assert !IsJsSpace(t[0]);
    }
  }

  function DigitChar(d: nat): (c: char)
    requires d < 10
    ensures '0' <= c <= '9' && c as int == '0' as int + d
  {
    ('0' as int + d) as char
  }
  predicate IsDigit(c: char) {
    '0' <= c <= '9'
  }

  predicate AllDigits(s: string) {
    forall i :: 0 <= i < |s| ==> IsDigit(s[i])
  }

  /** The decimal rendering of a natural number, as `${n}` produces it. */
  function Decimal(n: nat): (r: string)
    ensures |r| > 0 && AllDigits(r)
  {
    if n < 10 then [DigitChar(n)] else Decimal(n / 10) + [DigitChar(n % 10)]
  }

  /** Reads a string of decimal digits back as a number. */
  function DigitsValue(s: string): nat
    requires AllDigits(s)
  {
    if s == [] then 0 else DigitsValue(s[..|s| - 1]) * 10 + (s[|s| - 1] as int - '0' as int)
  }

  /** Parses a non-empty digit string; anything else is rejected. */
  function ParseNat(s: string): (r: Option<nat>)
    ensures r.Some? <==> s != [] && AllDigits(s)
  {
    if s != [] && AllDigits(s) then Some(DigitsValue(s)) else None
  }

  lemma {:induction false} DecimalRoundTrip(n: nat)
    ensures ParseNat(Decimal(n)) == Some(n)
  {
    var s := Decimal(n);
    if n >= 10 {
      DecimalRoundTrip(n / 10);
      var init := Decimal(n / 10);
      assert DigitsValue(init) == n / 10;
      assert s == init + [DigitChar(n % 10)];
      assert s[..|s| - 1] == init;
      assert s[|s| - 1] as int - '0' as int == n % 10;
      assert DigitsValue(s) == (n / 10) * 10 + n % 10;
    } else {
      assert s == [DigitChar(n)];
      assert s[..|s| - 1] == [];
      assert DigitsValue(s) == n;
    }
  }

  /** Distinct numbers render to distinct strings. */
  lemma DecimalInjective(m: nat, n: nat)
    requires Decimal(m) == Decimal(n)
    ensures m == n
  {
    DecimalRoundTrip(m);
    DecimalRoundTrip(n);
  }

  /** Number of occurrences of `c` in `s`. */
  function Count(s: string, c: char): nat {
    if s == [] then 0 else (if s[0] == c then 1 else 0) + Count(s[1..], c)
  }

  lemma {:induction false} CountAppend(a: string, b: string, c: char)
    ensures Count(a + b, c) == Count(a, c) + Count(b, c)
  {
    if a != [] {
      assert (a + b)[1..] == a[1..] + b;
      CountAppend(a[1..], b, c);
    } else {
      assert a + b == b;
    }
  }

  lemma {:induction false} CountZeroIffAbsent(s: string, c: char)
    ensures Count(s, c) == 0 <==> c !in s
  {
    if s != [] {
      CountZeroIffAbsent(s[1..], c);
      assert s == [s[0]] + s[1..];
    }
  }
}
