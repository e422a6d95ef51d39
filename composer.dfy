/**
 * The image descriptor composer (`ImageGenerator`): an aspect-ratio table, the prompt
 * sanitiser, the URL template for the external image host, and the loop that builds
 * one descriptor per requested image. Clock readings and `Math.random` draws are
 * parameters; random fractions are exact reals in [0, 1).
 */
module Composer {

  import opened Wrappers
  import opened Text
  import opened Uri
  import opened Schema

  datatype Dims = Dims(width: nat, height: nat)

  const RatioMap: map<string, Dims> :=
    map["16:9" := Dims(1200, 675), "1:1" := Dims(1000, 1000), "4:3" := Dims(1200, 900)]

  /** `getDimensions`: the ratio table, falling back to the 16:9 entry. Keys are compared exactly. */
  function Dimensions(aspectRatio: string): (r: Dims)
    ensures r == Dims(1200, 675) || r == Dims(1000, 1000) || r == Dims(1200, 900)
  {
    if aspectRatio in RatioMap then RatioMap[aspectRatio] else RatioMap["16:9"]
  }

  lemma DimensionsTable(aspectRatio: string)
    ensures Dimensions(aspectRatio) ==
      if aspectRatio == "1:1" then Dims(1000, 1000)
      else if aspectRatio == "4:3" then Dims(1200, 900)
      else Dims(1200, 675)
  {
  }

  // ---------------------------------------------------------------------------
  // Prompt sanitiser

  /** JavaScript's `\w` class. */
  predicate IsWordChar(c: char) {
    ('A' <= c <= 'Z') || ('a' <= c <= 'z') || ('0' <= c <= '9') || c == '_'
  }

  /** Characters the first replace keeps: `[\w\s,.-]`. */
  predicate KeptChar(c: char) {
    IsWordChar(c) || IsJsSpace(c) || c == ',' || c == '.' || c == '-'
  }

  /** Characters the cleaned prompt is made of. */
  predicate CleanChar(c: char) {
    IsWordChar(c) || c == ' ' || c == ',' || c == '.' || c == '-'
  }

  /** `.replace(/[^\w\s,.-]/g, ' ')` */
  function ReplaceSpecial(s: string): (r: string)
    ensures |r| == |s|
    ensures forall i :: 0 <= i < |s| ==> r[i] == if KeptChar(s[i]) then s[i] else ' '
  {
    seq(|s|, i requires 0 <= i < |s| => if KeptChar(s[i]) then s[i] else ' ')
  }

  /** Positions `i` and `i + 1` both hold whitespace. */
  predicate BlankPairAt(s: string, i: nat)
    requires i + 1 < |s|
  {
    IsJsSpace(s[i]) && IsJsSpace(s[i + 1])
  }

  /** Positions `i` and `i + 1` both hold a plain space. */
  predicate SpacePairAt(s: string, i: nat)
    requires i + 1 < |s|
  {
    s[i] == ' ' && s[i + 1] == ' '
  }

  /** After the first replace only kept characters remain. */
  lemma ReplacedKept(s: string)
    ensures forall i :: 0 <= i < |ReplaceSpecial(s)| ==> KeptChar(ReplaceSpecial(s)[i])
  {
  }

  /** No whitespace other than a plain space, and never two whitespace characters in a row. */
  predicate SingleSpaced(s: string) {
    && (forall i :: 0 <= i < |s| ==> IsJsSpace(s[i]) ==> s[i] == ' ')
    && (forall i: nat :: i + 1 < |s| ==> !BlankPairAt(s, i))
  }

  /** `.replace(/\s+/g, ' ')`: every run of whitespace becomes one space. */
  function CollapseSpaces(s: string): (r: string)
    ensures |r| <= |s|
    ensures SingleSpaced(r)
    ensures r == [] <==> s == []
    ensures r != [] ==> (IsJsSpace(r[0]) <==> IsJsSpace(s[0]))
    ensures NonSpace(r) == NonSpace(s)
    decreases |s|
  {
    if s == [] then []
    else if IsJsSpace(s[0]) then
      var rest := TrimStart(s);
      assert rest != s;
      ConsSingleSpaced(' ', CollapseSpaces(rest));
      NonSpaceTrimStart(s);
      assert ([' '] + CollapseSpaces(rest))[1..] == CollapseSpaces(rest);
      [' '] + CollapseSpaces(rest)
    else
      ConsSingleSpaced(s[0], CollapseSpaces(s[1..]));
      assert ([s[0]] + CollapseSpaces(s[1..]))[1..] == CollapseSpaces(s[1..]);
      [s[0]] + CollapseSpaces(s[1..])
  }

  /**
   * Collapsing keeps the words and where they break: reading words from the collapsed
   * text gives what reading them from the original does.
   */
  lemma {:induction false} CollapseKeepsWords(s: string, cur: string)
    ensures WordsFrom(CollapseSpaces(s), cur) == WordsFrom(s, cur)
    decreases |s|
  {
    if s != [] {
      if IsJsSpace(s[0]) {
        var rest := TrimStart(s);
        assert ([' '] + CollapseSpaces(rest))[1..] == CollapseSpaces(rest);
        CollapseKeepsWords(rest, []);
        WordsFromTrimStart(s[1..]);
        assert TrimStart(s) == TrimStart(s[1..]);
      } else {
        assert ([s[0]] + CollapseSpaces(s[1..]))[1..] == CollapseSpaces(s[1..]);
        CollapseKeepsWords(s[1..], cur + [s[0]]);
      }
    }
  }

  /** `s` ends in a whitespace character. */
  predicate EndsBlank(s: string) {
    s != [] && IsJsSpace(s[|s| - 1])
  }

  lemma EndsBlankCons(c: char, t: string)
    ensures EndsBlank([c] + t) <==> if t == [] then IsJsSpace(c) else EndsBlank(t)
  {
    assert t != [] ==> ([c] + t)[|t|] == t[|t| - 1];
  }

  /** The collapsed text ends in whitespace exactly when the original does. */
  lemma {:induction false} CollapseEndsLikeInput(s: string)
    ensures EndsBlank(CollapseSpaces(s)) <==> EndsBlank(s)
    decreases |s|
  {
    if s != [] {
      var tail := if IsJsSpace(s[0]) then TrimStart(s) else s[1..];
      var c := if IsJsSpace(s[0]) then ' ' else s[0];
      assert CollapseSpaces(s) == [c] + CollapseSpaces(tail);
      EndsBlankCons(c, CollapseSpaces(tail));
      CollapseEndsLikeInput(tail);
      if tail == [] {
        TrimStartDropsBlanks(s);
      } else {
        assert s[|s| - 1] == tail[|tail| - 1];
      }
    }
  }

  /** Collapsing a string of kept characters leaves only clean ones. */
  lemma {:induction false} CollapseKeepsClean(s: string)
    requires forall i :: 0 <= i < |s| ==> KeptChar(s[i])
    ensures forall i :: 0 <= i < |CollapseSpaces(s)| ==> CleanChar(CollapseSpaces(s)[i])
    decreases |s|
  {
    if s != [] {
      if IsJsSpace(s[0]) {
        var rest := TrimStart(s);
        assert forall i :: 0 <= i < |rest| ==> rest[i] == s[|s| - |rest| + i];
        CollapseKeepsClean(rest);
      } else {
        assert forall i :: 0 <= i < |s| - 1 ==> s[1..][i] == s[i + 1];
        CollapseKeepsClean(s[1..]);
      }
    }
  }

  /** A character put in front of a single-spaced string keeps it single-spaced, unless it makes a blank pair. */
  lemma ConsSingleSpaced(c: char, t: string)
    requires SingleSpaced(t)
    requires IsJsSpace(c) ==> c == ' ' && (t == [] || !IsJsSpace(t[0]))
    ensures SingleSpaced([c] + t)
  {
    var s := [c] + t;
    forall i: nat | i + 1 < |s|
      ensures !BlankPairAt(s, i)
    {
      if i > 0 {
        assert s[i] == t[i - 1] && s[i + 1] == t[i];
        assert !BlankPairAt(t, i - 1);
      }
    }
  }

  /** A window of a single-spaced string of clean characters is one too. */
  lemma WindowKeepsClean(c: string, r: string, k: int)
    requires OccursAt(c, r, k)
    requires SingleSpaced(c) && forall i :: 0 <= i < |c| ==> CleanChar(c[i])
    ensures SingleSpaced(r) && forall i :: 0 <= i < |r| ==> CleanChar(r[i])
  {
    assert forall i :: 0 <= i < |r| ==> r[i] == c[k + i];
    forall i: nat | i + 1 < |r|
      ensures !BlankPairAt(r, i)
    {
      assert !BlankPairAt(c, k + i);
    }
  }

  /** Trimming a single-spaced string of clean characters leaves no space at either end. */
  lemma TrimmedShape(c: string)
    requires SingleSpaced(c) && forall i :: 0 <= i < |c| ==> CleanChar(c[i])
    ensures var r := Trim(c);
      && SingleSpaced(r)
      && (forall i :: 0 <= i < |r| ==> CleanChar(r[i]))
      && (r == [] || (r[0] != ' ' && r[|r| - 1] != ' '))
  {
    WindowKeepsClean(c, Trim(c), |c| - |TrimStart(c)|);
  }

  /** Whitespace collapse, then `trim()`, before truncation. */
  function NormalizeSpaces(s: string): (r: string)
    requires forall i :: 0 <= i < |s| ==> KeptChar(s[i])
    ensures SingleSpaced(r)
    ensures forall i :: 0 <= i < |r| ==> CleanChar(r[i])
    ensures r == [] || (r[0] != ' ' && r[|r| - 1] != ' ')
  {
    CollapseKeepsClean(s);
    TrimmedShape(CollapseSpaces(s));
    Trim(CollapseSpaces(s))
  }

  /**
   * Collapsing and trimming change whitespace only: the text is no longer, keeps the
   * other characters in order, and keeps the same words.
   */
  lemma NormalizeKeepsWords(s: string)
    requires forall i :: 0 <= i < |s| ==> KeptChar(s[i])
    ensures |NormalizeSpaces(s)| <= |s| && NonSpace(NormalizeSpaces(s)) == NonSpace(s)
    ensures Words(NormalizeSpaces(s)) == Words(s)
  {
    NonSpaceTrim(CollapseSpaces(s));
    CollapseKeepsWords(s, []);
    WordsTrim(CollapseSpaces(s));
  }

  const MaxPromptLength := 250

  /**
   * The cleaned prompt: special characters replaced, whitespace collapsed, trimmed and
   * cut to 250 characters. Truncation comes after the trim, so the result may end in a
   * space; it never starts with one.
   */
  function CleanPrompt(prompt: string): (r: string)
    ensures |r| <= MaxPromptLength
    ensures forall i :: 0 <= i < |r| ==> CleanChar(r[i])
    ensures r == [] || r[0] != ' '
    ensures forall i: nat :: i + 1 < |r| ==> !SpacePairAt(r, i)
  {
    ReplacedKept(prompt);
    var n := NormalizeSpaces(ReplaceSpecial(prompt));
    if |n| <= MaxPromptLength then
      PrefixKeepsClean(n, |n|);
      assert n[..|n|] == n;
      n
    else
      PrefixKeepsClean(n, MaxPromptLength);
      n[..MaxPromptLength]
  }

  /**
   * The cleaned prompt keeps the user's words: its non-space characters are a prefix of
   * those left after the replace, and when the prompt has at most 250 characters it
   * has exactly the words left after the replace.
   */
  lemma CleanPromptKeepsWords(prompt: string)
    ensures NonSpace(CleanPrompt(prompt)) <= NonSpace(ReplaceSpecial(prompt))
    ensures |prompt| <= MaxPromptLength ==> NonSpace(CleanPrompt(prompt)) == NonSpace(ReplaceSpecial(prompt))
    ensures |prompt| <= MaxPromptLength ==> Words(CleanPrompt(prompt)) == Words(ReplaceSpecial(prompt))
  {
    ReplacedKept(prompt);
    var n := NormalizeSpaces(ReplaceSpecial(prompt));
    NormalizeKeepsWords(ReplaceSpecial(prompt));
    if |n| <= MaxPromptLength {
      assert CleanPrompt(prompt) == n;
    } else {
      assert CleanPrompt(prompt) == n[..MaxPromptLength];
      PrefixKeepsWords(n, MaxPromptLength);
    }
  }

  /** The non-space characters of a prefix are a prefix of the non-space characters. */
  lemma PrefixKeepsWords(n: string, k: nat)
    requires k <= |n|
    ensures NonSpace(n[..k]) <= NonSpace(n)
  {
    assert n == n[..k] + n[k..];
    NonSpaceAppend(n[..k], n[k..]);
  }

  /** A prefix of a normalised prompt is clean, starts with no space and has no two spaces in a row. */
  lemma PrefixKeepsClean(n: string, k: nat)
    requires SingleSpaced(n) && forall i :: 0 <= i < |n| ==> CleanChar(n[i])
    requires n == [] || n[0] != ' '
    requires k <= |n|
    ensures var r := n[..k];
      && (forall i :: 0 <= i < |r| ==> CleanChar(r[i]))
      && (r == [] || r[0] != ' ')
      && (forall i: nat :: i + 1 < |r| ==> !SpacePairAt(r, i))
  {
    var r := n[..k];
    forall i: nat | i + 1 < |r|
      ensures !SpacePairAt(r, i)
    {
      assert !BlankPairAt(n, i);
    }
  }

  /** Clean characters, a comma, a space and an ASCII suffix make an ASCII string. */
  lemma JoinedAscii(cleaned: string, suffix: string)
    requires forall i :: 0 <= i < |cleaned| ==> CleanChar(cleaned[i])
    requires IsAscii(suffix)
    ensures IsAscii(cleaned + ", " + suffix)
  {
    var r := cleaned + ", " + suffix;
    forall i | 0 <= i < |r|
      ensures r[i] as int < 128
    {
      if i < |cleaned| {
        assert r[i] == cleaned[i];
      } else if i >= |cleaned| + 2 {
        assert r[i] == suffix[i - |cleaned| - 2];
      }
    }
  }

  const StyleMap: map<string, string> := map[
    "photorealistic" := "photorealistic, high quality",
    "artistic" := "artistic style, creative",
    "typography" := "text design, clean typography",
    "abstract" := "abstract art, modern design"]

  const DefaultStyleSuffix := "professional quality"

  /** The style enhancement, looked up by the lowered style among the table's own keys. */
  function StyleSuffix(style: string): (r: string)
    ensures IsAscii(r)
  {
    var key := ToLower(style);
    StyleSuffixAscii(key);
    if key in StyleMap then StyleMap[key] else DefaultStyleSuffix
  }

  /** The table's suffixes are ASCII. */
  lemma TableSuffixesAscii()
    ensures IsAscii("photorealistic, high quality") && IsAscii("artistic style, creative")
    ensures IsAscii("text design, clean typography") && IsAscii("abstract art, modern design")
  {
  }

  /** Every suffix the lookup can produce is ASCII. */
  lemma StyleSuffixAscii(key: string)
    ensures IsAscii(if key in StyleMap then StyleMap[key] else DefaultStyleSuffix)
  {
    TableSuffixesAscii();
    assert IsAscii("professional quality");
  }

  /** The style lookup, entry by entry, with the default for every other lowered style. */
  lemma StyleSuffixTable(style: string)
    ensures StyleSuffix(style) ==
      match ToLower(style)
      case "photorealistic" => "photorealistic, high quality"
      case "artistic" => "artistic style, creative"
      case "typography" => "text design, clean typography"
      case "abstract" => "abstract art, modern design"
      case _ => "professional quality"
  {
  }

  /** `sanitizePrompt`: the cleaned prompt, a comma and a space, then the style suffix; all ASCII. */
  function SanitizePrompt(prompt: string, style: string): (r: string)
    ensures IsAscii(r)
  {
    JoinedAscii(CleanPrompt(prompt), StyleSuffix(style));
    CleanPrompt(prompt) + ", " + StyleSuffix(style)
  }

  /** Collapsing leaves an already single-spaced string alone. */
  lemma CollapseFixed(s: string)
    requires SingleSpaced(s)
    ensures CollapseSpaces(s) == s
  {
    SingleSpacedSteps(s);
    CollapseFixedSteps(s);
  }

  /** `SingleSpaced`, stated one position at a time from the front. */
  predicate SingleSpacedFromFront(s: string)
    decreases |s|
  {
    s == [] ||
    ((IsJsSpace(s[0]) ==> s[0] == ' ' && (|s| == 1 || !IsJsSpace(s[1]))) && SingleSpacedFromFront(s[1..]))
  }

  lemma {:induction false} SingleSpacedSteps(s: string)
    requires SingleSpaced(s)
    ensures SingleSpacedFromFront(s)
    decreases |s|
  {
    if s != [] {
      SingleSpacedTail(s);
      SingleSpacedSteps(s[1..]);
      if IsJsSpace(s[0]) && |s| > 1 {
        assert !BlankPairAt(s, 0);
      }
    }
  }

  lemma {:induction false} CollapseFixedSteps(s: string)
    requires SingleSpacedFromFront(s)
    ensures CollapseSpaces(s) == s
    decreases |s|
  {
    if s != [] {
      var t := s[1..];
      CollapseFixedSteps(t);
      if IsJsSpace(s[0]) {
        assert TrimStart(t) == t;
        assert TrimStart(s) == t;
      }
      assert s == [s[0]] + t;
    }
  }

  lemma SingleSpacedTail(s: string)
    requires SingleSpaced(s) && s != []
    ensures SingleSpaced(s[1..])
  {
    var t := s[1..];
    forall i: nat | i + 1 < |t|
      ensures !BlankPairAt(t, i)
    {
      assert !BlankPairAt(s, i + 1);
    }
  }

  lemma ReplaceKeepsClean(s: string)
    requires forall i :: 0 <= i < |s| ==> CleanChar(s[i])
    ensures ReplaceSpecial(s) == s
  {
  }

  lemma CleanSingleSpaced(s: string)
    requires forall i :: 0 <= i < |s| ==> CleanChar(s[i])
    requires forall i: nat :: i + 1 < |s| ==> !SpacePairAt(s, i)
    ensures SingleSpaced(s)
  {
    forall i: nat | i + 1 < |s|
      ensures !BlankPairAt(s, i)
    {
      assert !SpacePairAt(s, i);
    }
  }

  lemma TrimKeepsTrimmed(s: string)
    requires s == [] || (!IsJsSpace(s[0]) && !IsJsSpace(s[|s| - 1]))
    ensures Trim(s) == s
  {
    assert TrimStart(s) == s;
  }

  /**
   * A prompt that is already clean (clean characters, single spaces, no space at
   * either end) survives sanitising except for the cut at 250 characters.
   */
  lemma CleanKeepsCleanPrompt(s: string)
    requires forall i :: 0 <= i < |s| ==> CleanChar(s[i])
    requires forall i: nat :: i + 1 < |s| ==> !SpacePairAt(s, i)
    requires s == [] || (s[0] != ' ' && s[|s| - 1] != ' ')
    ensures CleanPrompt(s) == if |s| <= MaxPromptLength then s else s[..MaxPromptLength]
  {
    ReplaceKeepsClean(s);
    CleanSingleSpaced(s);
    CollapseFixed(s);
    TrimKeepsTrimmed(s);
    assert NormalizeSpaces(s) == s;
  }

  /**
   * Truncation happens after the trim, so the cleaned prompt can end in a space:
   * 249 letters, a space and one more letter are cut just after the space.
   */
  lemma TruncationMayEndInSpace()
    ensures var p := seq(249, _ => 'a') + " b";
      |CleanPrompt(p)| == MaxPromptLength && CleanPrompt(p)[MaxPromptLength - 1] == ' '
  {
    var p := seq(249, _ => 'a') + " b";
    assert |p| == 251 && p[249] == ' ' && p[250] == 'b';
    assert forall i :: 0 <= i < 249 ==> p[i] == 'a';
    CleanKeepsCleanPrompt(p);
  }

  // ---------------------------------------------------------------------------
  // Image URLs

  const ImageHost := "https://image.pollinations.ai/prompt/"

  /** What can be read back from an image URL. */
  datatype UrlFields = UrlFields(prompt: string, width: nat, height: nat, seed: nat, timestamp: nat)

  function QueryParams(width: nat, height: nat, seed: nat, timestamp: nat): seq<string> {
    ["width=" + Decimal(width), "height=" + Decimal(height), "seed=" + Decimal(seed),
     "nologo=true", "model=flux", "safe=true", "t=" + Decimal(timestamp)]
  }

  /**
   * The image URL template: the host, the encoded sanitised prompt, `?`, and the
   * seven query parameters joined by `&`.
   */
  function ImageUrl(prompt: string, width: nat, height: nat, seed: nat, timestamp: nat): string
    requires IsAscii(prompt)
  {
    ImageHost + EncodeUriComponent(prompt) + ['?'] + Join(QueryParams(width, height, seed, timestamp), '&')
  }

  /** The value of a `key=digits` query parameter. */
  function NumberParam(param: string, key: string): Option<nat> {
    if StartsWith(param, key) then ParseNat(param[|key|..]) else None
  }

  /**
   * Reads an image URL back: host, decoded prompt, and the seven query parameters in
   * template order with the three fixed flags.
   */
  function ParseImageUrl(url: string): Option<UrlFields> {
    if !StartsWith(url, ImageHost) then None
    else
      var pieces := Split(url[|ImageHost|..], '?');
      if |pieces| != 2 then None
      else
        var params := Split(pieces[1], '&');
        if |params| != 7 || params[3] != "nologo=true" || params[4] != "model=flux" || params[5] != "safe=true"
        then None
        else
          match (DecodeUriComponent(pieces[0]), NumberParam(params[0], "width="), NumberParam(params[1], "height="),
                 NumberParam(params[2], "seed="), NumberParam(params[6], "t="))
          case (Some(p), Some(w), Some(h), Some(sd), Some(t)) => Some(UrlFields(p, w, h, sd, t))
          case _ => None
  }

  lemma NumberParamDecimal(key: string, n: nat)
    ensures NumberParam(key + Decimal(n), key) == Some(n)
  {
    assert (key + Decimal(n))[..|key|] == key;
    assert (key + Decimal(n))[|key|..] == Decimal(n);
    DecimalRoundTrip(n);
  }

  lemma DecimalLacks(n: nat, c: char)
    requires !IsDigit(c)
    ensures c !in Decimal(n)
  {
  }

  lemma QueryParamsLack(width: nat, height: nat, seed: nat, timestamp: nat, c: char)
    requires c == '?' || c == '&'
    ensures forall i :: 0 <= i < 7 ==> c !in QueryParams(width, height, seed, timestamp)[i]
  {
    DecimalLacks(width, c);
    DecimalLacks(height, c);
    DecimalLacks(seed, c);
    DecimalLacks(timestamp, c);
  }

  /** Every URL the composer builds reads back as exactly the values it was built from. */
  lemma {:induction false} ParseImageUrlRoundTrip(prompt: string, width: nat, height: nat, seed: nat, timestamp: nat)
    requires IsAscii(prompt)
    ensures ParseImageUrl(ImageUrl(prompt, width, height, seed, timestamp))
      == Some(UrlFields(prompt, width, height, seed, timestamp))
  {
    var url := ImageUrl(prompt, width, height, seed, timestamp);
    var enc := EncodeUriComponent(prompt);
    var q := QueryParams(width, height, seed, timestamp);
    var query := Join(q, '&');
    assert StartsWith(url, ImageHost);
    assert url[|ImageHost|..] == enc + ['?'] + query;
    assert '?' !in enc;
    QueryParamsLack(width, height, seed, timestamp, '?');
    QueryParamsLack(width, height, seed, timestamp, '&');
    JoinExcludes(q, '&', '?');
    SplitJoin([enc, query], '?');
    assert Join([enc, query], '?') == enc + ['?'] + query;
    SplitJoin(q, '&');
    DecodeEncode(prompt);
    NumberParamDecimal("width=", width);
    NumberParamDecimal("height=", height);
    NumberParamDecimal("seed=", seed);
    NumberParamDecimal("t=", timestamp);
  }

  // ---------------------------------------------------------------------------
  // Descriptors

  /** The two `Math.random()` draws of one loop iteration, each in [0, 1). */
  datatype Draw = Draw(seedFraction: real, scoreFraction: real)

  predicate ValidDraw(d: Draw) {
    0.0 <= d.seedFraction < 1.0 && 0.0 <= d.scoreFraction < 1.0
  }

  /** `Math.floor(Math.random() * 999999) + i * 1234` */
  function Seed(d: Draw, i: nat): (r: nat)
    requires ValidDraw(d)
    ensures i * 1234 <= r < 999999 + i * 1234
  {
    (d.seedFraction * 999999.0).Floor + i * 1234
  }

  /** `Math.round((8.0 + Math.random() * 2.0) * 10) / 10`, in tenths; `Math.round(x)` is `floor(x + 1/2)`. */
  function QualityTenths(d: Draw): (r: int)
    requires ValidDraw(d)
    ensures 80 <= r <= 100
  {
    ((8.0 + d.scoreFraction * 2.0) * 10.0 + 0.5).Floor
  }

  /** How many times `for (let i = 0; i < imageCount; i++)` runs: the least natural not below the count. */
  function IterationCount(imageCount: real): (r: nat)
    ensures r as real >= imageCount
    ensures r == 0 || ((r - 1) as real) < imageCount
  {
    if imageCount <= 0.0 then 0 else -((-imageCount).Floor)
  }

  /** The loop runs while the index is below the count, so the index stays within the iteration count. */
  lemma LoopBounds(i: nat, imageCount: real)
    requires i <= IterationCount(imageCount)
    ensures (i as real) < imageCount <==> i < IterationCount(imageCount)
  {
    var r := IterationCount(imageCount);
    if i < r {
      assert (i as real) <= ((r - 1) as real);
    }
  }

  /** Descriptor `i` of a batch: URL, label `<model> v<i+1>` and quality score. */
  function Descriptor(cleanPrompt: string, dims: Dims, modelName: string, baseTime: nat, i: nat, d: Draw): ImageDescriptor
    requires IsAscii(cleanPrompt) && ValidDraw(d)
  {
    ImageDescriptor(
      ImageUrl(cleanPrompt, dims.width, dims.height, Seed(d, i), baseTime + i * 150),
      modelName + " v" + Decimal(i + 1),
      QualityTenths(d))
  }

  /**
   * What one descriptor's URL carries: the shared prompt and size, descriptor `i`'s
   * seed, and the timestamp `baseTime + 150 * i`.
   */
  lemma DescriptorUrl(cleanPrompt: string, dims: Dims, modelName: string, baseTime: nat, i: nat, d: Draw)
    requires IsAscii(cleanPrompt) && ValidDraw(d)
    ensures ParseImageUrl(Descriptor(cleanPrompt, dims, modelName, baseTime, i, d).url)
      == Some(UrlFields(cleanPrompt, dims.width, dims.height, Seed(d, i), baseTime + i * 150))
  {
    ParseImageUrlRoundTrip(cleanPrompt, dims.width, dims.height, Seed(d, i), baseTime + i * 150);
  }

  /**
   * Two descriptors of one batch never share a URL or a label, whatever the draws:
   * their timestamps differ even when their seeds collide.
   */
  lemma DescriptorsDistinct(cleanPrompt: string, dims: Dims, modelName: string, baseTime: nat,
                            i: nat, di: Draw, j: nat, dj: Draw)
    requires IsAscii(cleanPrompt) && ValidDraw(di) && ValidDraw(dj)
    requires i < j
    ensures Descriptor(cleanPrompt, dims, modelName, baseTime, i, di).url
         != Descriptor(cleanPrompt, dims, modelName, baseTime, j, dj).url
    ensures Descriptor(cleanPrompt, dims, modelName, baseTime, i, di).model
         != Descriptor(cleanPrompt, dims, modelName, baseTime, j, dj).model
  {
    DescriptorUrl(cleanPrompt, dims, modelName, baseTime, i, di);
    DescriptorUrl(cleanPrompt, dims, modelName, baseTime, j, dj);
    var prefix := modelName + " v";
    if prefix + Decimal(i + 1) == prefix + Decimal(j + 1) {
      assert Decimal(i + 1) == (prefix + Decimal(i + 1))[|prefix|..];
      assert Decimal(j + 1) == (prefix + Decimal(j + 1))[|prefix|..];
      DecimalInjective(i + 1, j + 1);
    }
  }

  /**
   * Any two descriptors of one batch carry the same prompt, width and height, and the
   * later one carries the later timestamp.
   */
  lemma DescriptorsShareAndAdvance(cleanPrompt: string, dims: Dims, modelName: string, baseTime: nat,
                                   i: nat, di: Draw, j: nat, dj: Draw)
    requires IsAscii(cleanPrompt) && ValidDraw(di) && ValidDraw(dj)
    requires i < j
    ensures var fi := ParseImageUrl(Descriptor(cleanPrompt, dims, modelName, baseTime, i, di).url);
      var fj := ParseImageUrl(Descriptor(cleanPrompt, dims, modelName, baseTime, j, dj).url);
      && fi.Some? && fj.Some?
      && fi.value.prompt == fj.value.prompt == cleanPrompt
      && fi.value.width == fj.value.width == dims.width
      && fi.value.height == fj.value.height == dims.height
      && fi.value.timestamp < fj.value.timestamp
  {
    DescriptorUrl(cleanPrompt, dims, modelName, baseTime, i, di);
    DescriptorUrl(cleanPrompt, dims, modelName, baseTime, j, dj);
  }

  /** Seeds alone can collide: the second image's offset of 1234 can meet the first image's draw. */
  lemma SeedsMayCollide()
    ensures Seed(Draw(1234.5 / 999999.0, 0.0), 0) == Seed(Draw(0.0, 0.0), 1)
  {
  }

  /**
   * The loop of `createReliableImages`: one descriptor per iteration, in loop order,
   * for an already sanitised prompt and resolved size.
   */
  method BuildBatch(cleanPrompt: string, dims: Dims, modelName: string, imageCount: real, baseTime: nat,
                    draws: seq<Draw>)
    returns (images: seq<ImageDescriptor>)
    requires IsAscii(cleanPrompt)
    requires |draws| >= IterationCount(imageCount)
    requires forall k :: 0 <= k < |draws| ==> ValidDraw(draws[k])
    ensures |images| == IterationCount(imageCount)
    ensures forall k :: 0 <= k < |images| ==>
      images[k] == Descriptor(cleanPrompt, dims, modelName, baseTime, k, draws[k])
  {
    images := [];
    var i: nat := 0;
    LoopBounds(i, imageCount);
    while (i as real) < imageCount
      invariant i <= IterationCount(imageCount)
      invariant (i as real) < imageCount <==> i < IterationCount(imageCount)
      invariant |images| == i
      invariant forall k :: 0 <= k < i ==>
        images[k] == Descriptor(cleanPrompt, dims, modelName, baseTime, k, draws[k])
    {
      var d := draws[i];
      var seed := Seed(d, i);
      var timestamp := baseTime + i * 150;
      var url := ImageUrl(cleanPrompt, dims.width, dims.height, seed, timestamp);
      var score := QualityTenths(d);
      images := images + [ImageDescriptor(url, modelName + " v" + Decimal(i + 1), score)];
      i := i + 1;
      LoopBounds(i, imageCount);
    }
  }

  /**
   * `createReliableImages`: the batch for the sanitised prompt at the aspect ratio's
   * size, every score between 8.0 and 10.0.
   */
  method CreateReliableImages(prompt: string, style: string, aspectRatio: string, modelName: string,
                              imageCount: real, baseTime: nat, draws: seq<Draw>)
    returns (images: seq<ImageDescriptor>)
    requires |draws| >= IterationCount(imageCount)
    requires forall k :: 0 <= k < |draws| ==> ValidDraw(draws[k])
    ensures |images| == IterationCount(imageCount)
    ensures forall i :: 0 <= i < |images| ==>
      images[i] == Descriptor(SanitizePrompt(prompt, style), Dimensions(aspectRatio), modelName, baseTime, i, draws[i])
    ensures forall i :: 0 <= i < |images| ==> 80 <= images[i].qualityTenths <= 100
  {
    images := BuildBatch(SanitizePrompt(prompt, style), Dimensions(aspectRatio), modelName, imageCount, baseTime, draws);
  }

  /** `Math.round(ms / 1000)` for a non-negative duration. */
  function RoundedSeconds(ms: nat): (r: nat)
    ensures r * 1000 <= ms + 500 < r * 1000 + 1000
  {
    (ms + 500) / 1000
  }

  /**
   * `generateImages`: the batch, the elapsed time in whole seconds, and the model tag
   * and reasoning passed through unchanged.
   */
  method GenerateImages(prompt: string, style: string, aspectRatio: string, selectedModel: string, reasoning: string,
                        imageCount: real, baseTime: nat, draws: seq<Draw>, elapsedMs: nat)
    returns (g: Generation)
    requires |draws| >= IterationCount(imageCount)
    requires forall k :: 0 <= k < |draws| ==> ValidDraw(draws[k])
    ensures g.selectedModel == selectedModel && g.reasoning == reasoning
    ensures g.generationTime == RoundedSeconds(elapsedMs)
    ensures |g.images| == IterationCount(imageCount)
    ensures forall i :: 0 <= i < |g.images| ==>
      g.images[i] == Descriptor(SanitizePrompt(prompt, style), Dimensions(aspectRatio), selectedModel, baseTime, i, draws[i])
    ensures forall i :: 0 <= i < |g.images| ==> 80 <= g.images[i].qualityTenths <= 100
    ensures ValidGeneration(g)
  {
    var images := CreateReliableImages(prompt, style, aspectRatio, selectedModel, imageCount, baseTime, draws);
    g := Generation(images, RoundedSeconds(elapsedMs), selectedModel, reasoning);
  }

  // ---------------------------------------------------------------------------
  // Lookups as written: the two tables are plain object literals, so a key that
  // names a member of `Object.prototype` finds that inherited member.

  /** Names every plain object inherits from `Object.prototype`. */
  const ObjectPrototypeKeys: set<string> := {
    "constructor", "__proto__", "hasOwnProperty", "isPrototypeOf", "propertyIsEnumerable",
    "toString", "toLocaleString", "valueOf", "__defineGetter__", "__defineSetter__",
    "__lookupGetter__", "__lookupSetter__"}

  /** How an inherited member reads inside a template string. */
  function InheritedText(key: string): string {
    if key == "__proto__" then "[object Object]"
    else if key == "constructor" then "function Object() { [native code] }"
    else "function " + key + "() { [native code] }"
  }

  /**
   * `getDimensions` as written: an inherited member is truthy, so it is returned
   * instead of the fallback, and it has no `width` or `height` (None).
   */
  function DimensionsAsWritten(aspectRatio: string): (r: Option<Dims>)
    ensures aspectRatio !in ObjectPrototypeKeys ==> r == Some(Dimensions(aspectRatio))
  {
    if aspectRatio in RatioMap then Some(RatioMap[aspectRatio])
    else if aspectRatio in ObjectPrototypeKeys then None
    else Some(RatioMap["16:9"])
  }

  /** The aspect ratio `constructor` passes the request schema and yields no size at all. */
  lemma ConstructorRatioHasNoSize()
    ensures DimensionsAsWritten("constructor") == None
    ensures Dimensions("constructor") == Dims(1200, 675)
  {
    assert "constructor" in ObjectPrototypeKeys;
  }

  /**
   * The style lookup as written: after lowering, a prototype name selects the
   * inherited member, whose text becomes the suffix.
   */
  function StyleSuffixAsWritten(style: string): (r: string)
    ensures ToLower(style) !in ObjectPrototypeKeys ==> r == StyleSuffix(style)
  {
    var key := ToLower(style);
    if key in StyleMap then StyleMap[key]
    else if key in ObjectPrototypeKeys then InheritedText(key)
    else DefaultStyleSuffix
  }

  /** The style `Constructor` lowers to `constructor` and appends the source text of `Object`. */
  lemma ConstructorStyleLeaksFunctionText()
    ensures StyleSuffixAsWritten("Constructor") == "function Object() { [native code] }"
    ensures StyleSuffix("Constructor") == DefaultStyleSuffix
  {
    assert ToLower("Constructor") == "constructor";
    assert "constructor" in ObjectPrototypeKeys;
  }
}
