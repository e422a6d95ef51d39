/**
 * The list and set state of the generator page: the results grid, the favourites
 * gallery, the variation list, the set of image URLs with a variation in flight,
 * and the cache-busting retry of an image that failed to load. Clock readings are
 * parameters; requests to the server are returned rather than sent.
 */
module Client {

  import opened Wrappers
  import opened Text
  import opened Schema

  /** A result card: a server descriptor tagged with an id, the prompt and a favourite flag. */
  datatype GeneratedImage = GeneratedImage(
    url: string, model: string, qualityTenths: int, id: string, prompt: string, isFavorite: bool)

  datatype VariationImage = VariationImage(
    originalUrl: string, variationUrl: string, variationType: string, model: string,
    processingTimeTenths: int, id: string)

  /** The body the page posts to the generate endpoint. */
  datatype GenerateRequest = GenerateRequest(prompt: string, style: string, aspectRatio: string, imageCount: int)

  /** The body the page posts to the variation endpoint. */
  datatype VariationRequest = VariationRequest(imageUrl: string, variationType: string, prompt: string)

  // ---------------------------------------------------------------------------
  // Pure list updaters

  predicate HasId(s: seq<GeneratedImage>, id: string) {
    exists i :: 0 <= i < |s| && s[i].id == id
  }

  /** `results.find(img => img.id === id)`, as the index of the first match. */
  function FindIndex(s: seq<GeneratedImage>, id: string): (r: Option<nat>)
    ensures r.None? <==> !HasId(s, id)
    ensures r.Some? ==> r.value < |s| && s[r.value].id == id
    ensures r.Some? ==> forall j :: 0 <= j < r.value ==> s[j].id != id
  {
    if s == [] then None
    else if s[0].id == id then Some(0)
    else
      var rest := FindIndex(s[1..], id);
      assert forall j :: 1 <= j < |s| ==> s[j] == s[1..][j - 1];
      if rest.Some? then Some(rest.value + 1) else None
  }

  /** `prev.map(img => img.id === id ? { ...img, isFavorite: flag } : img)` */
  function SetFavoriteFlag(s: seq<GeneratedImage>, id: string, flag: bool): (r: seq<GeneratedImage>)
    ensures |r| == |s|
    ensures forall i :: 0 <= i < |s| ==>
      && r[i].(isFavorite := s[i].isFavorite) == s[i]
      && r[i].isFavorite == (if s[i].id == id then flag else s[i].isFavorite)
  {
    if s == [] then []
    else [if s[0].id == id then s[0].(isFavorite := flag) else s[0]] + SetFavoriteFlag(s[1..], id, flag)
  }

  /** `prev.filter(fav => fav.id !== id)` */
  function WithoutId(s: seq<GeneratedImage>, id: string): (r: seq<GeneratedImage>)
    ensures |r| <= |s|
    ensures forall x :: x in r <==> x in s && x.id != id
  {
    if s == [] then []
    else if s[0].id == id then WithoutId(s[1..], id)
    else [s[0]] + WithoutId(s[1..], id)
  }

  /** Filtering out an id that is not there keeps the list as it was. */
  lemma {:induction false} WithoutAbsentId(s: seq<GeneratedImage>, id: string)
    requires !HasId(s, id)
    ensures WithoutId(s, id) == s
  {
    if s != [] {
      assert !HasId(s[1..], id) by {
        forall i | 0 <= i < |s[1..]| ensures s[1..][i].id != id {
          assert s[1..][i] == s[i + 1];
        }
      }
      WithoutAbsentId(s[1..], id);
      assert s[0].id != id;
      assert s == [s[0]] + s[1..];
    }
  }

  /** Filtering distributes over appending. */
  lemma {:induction false} WithoutIdAppend(a: seq<GeneratedImage>, b: seq<GeneratedImage>, id: string)
    ensures WithoutId(a + b, id) == WithoutId(a, id) + WithoutId(b, id)
  {
    if a != [] {
      assert (a + b)[1..] == a[1..] + b;
      WithoutIdAppend(a[1..], b, id);
    } else {
      assert a + b == b;
    }
  }

  /** Both lists of the page that `toggleFavorite` touches. */
  datatype Lists = Lists(results: seq<GeneratedImage>, favorites: seq<GeneratedImage>)

  /** `toggleFavorite(id)` on the two lists. */
  function ToggleLists(l: Lists, id: string): Lists {
    match FindIndex(l.results, id)
    case None => l
    case Some(k) =>
      if l.results[k].isFavorite then
        Lists(SetFavoriteFlag(l.results, id, false), WithoutId(l.favorites, id))
      else
        Lists(SetFavoriteFlag(l.results, id, true), l.favorites + [l.results[k].(isFavorite := true)])
  }

  /**
   * What toggling does. An id missing from the results changes nothing. Otherwise,
   * with `x` the first result carrying the id: if `x` is a favourite, every gallery
   * entry with the id goes and all results with the id are unflagged; if not, one
   * flagged copy of `x` is appended to the gallery and all results with the id are
   * flagged. Nothing else in either list changes.
   */
  lemma ToggleEffect(l: Lists, id: string)
    ensures !HasId(l.results, id) ==> ToggleLists(l, id) == l
    ensures HasId(l.results, id) ==>
      var k := FindIndex(l.results, id).value;
      var flag := !l.results[k].isFavorite;
      var t := ToggleLists(l, id);
      && |t.results| == |l.results|
      && (forall i :: 0 <= i < |l.results| ==>
            && t.results[i].(isFavorite := l.results[i].isFavorite) == l.results[i]
            && t.results[i].isFavorite == (if l.results[i].id == id then flag else l.results[i].isFavorite))
      && (flag ==> t.favorites == l.favorites + [l.results[k].(isFavorite := true)])
      && (!flag ==> forall x :: x in t.favorites <==> x in l.favorites && x.id != id)
  {
  }

  /**
   * A gallery entry whose image has left the results (a new generation cleared
   * them) cannot be removed by toggling: the lookup only searches the results.
   */
  lemma StaleFavoriteStays(l: Lists, id: string)
    requires HasId(l.favorites, id) && !HasId(l.results, id)
    ensures ToggleLists(l, id).favorites == l.favorites
    ensures HasId(ToggleLists(l, id).favorites, id)
  {
  }

  lemma SetFlagKeepsIds(s: seq<GeneratedImage>, id: string, flag: bool, other: string)
    ensures FindIndex(SetFavoriteFlag(s, id, flag), other) == FindIndex(s, other)
  {
    var r := SetFavoriteFlag(s, id, flag);
    assert forall i :: 0 <= i < |s| ==> r[i].id == s[i].id by {
      forall i | 0 <= i < |s| ensures r[i].id == s[i].id {
        assert r[i].(isFavorite := s[i].isFavorite) == s[i];
      }
    }
    FindIndexByIds(r, s, other);
  }

  /** The lookup reads only the ids: lists with the same ids in the same order agree. */
  lemma {:induction false} FindIndexByIds(a: seq<GeneratedImage>, b: seq<GeneratedImage>, id: string)
    requires |a| == |b| && forall i :: 0 <= i < |a| ==> a[i].id == b[i].id
    ensures FindIndex(a, id) == FindIndex(b, id)
    decreases |a|
  {
    if a != [] && a[0].id != id {
      assert forall i :: 0 <= i < |a| - 1 ==> a[1..][i] == a[i + 1] && b[1..][i] == b[i + 1];
      FindIndexByIds(a[1..], b[1..], id);
    }
  }

  lemma SetFlagTwice(s: seq<GeneratedImage>, id: string)
    requires forall i :: 0 <= i < |s| && s[i].id == id ==> !s[i].isFavorite
    ensures SetFavoriteFlag(SetFavoriteFlag(s, id, true), id, false) == s
  {
    var r := SetFavoriteFlag(SetFavoriteFlag(s, id, true), id, false);
    forall i | 0 <= i < |s| ensures r[i] == s[i] {
      var m := SetFavoriteFlag(s, id, true);
      assert m[i].(isFavorite := s[i].isFavorite) == s[i];
      assert r[i].(isFavorite := m[i].isFavorite) == m[i];
    }
  }

  /**
   * Toggling an unflagged result twice restores both lists, provided no result with
   * that id was flagged and the gallery did not hold it.
   */
  lemma ToggleTwiceRestores(l: Lists, id: string)
    requires HasId(l.results, id) && !HasId(l.favorites, id)
    requires forall i :: 0 <= i < |l.results| && l.results[i].id == id ==> !l.results[i].isFavorite
    ensures ToggleLists(ToggleLists(l, id), id) == l
  {
    var k := FindIndex(l.results, id).value;
    var once := ToggleLists(l, id);
    var x := l.results[k].(isFavorite := true);
    assert once == Lists(SetFavoriteFlag(l.results, id, true), l.favorites + [x]);
    SetFlagKeepsIds(l.results, id, true, id);
    assert once.results[k].isFavorite;
    WithoutIdAppend(l.favorites, [x], id);
    WithoutAbsentId(l.favorites, id);
    assert WithoutId([x], id) == [];
    SetFlagTwice(l.results, id);
  }

  /**
   * The id of image `index` of a batch, read off the clock at `now`:
   * `${Date.now()}-${index}`. The clock is read once per card.
   */
  function ResultId(now: nat, index: nat): string {
    Decimal(now) + "-" + Decimal(index)
  }

  /** The length of the run of digits `s` starts with. */
  function DigitRun(s: string): (n: nat)
    ensures n <= |s|
  {
    if s != [] && IsDigit(s[0]) then 1 + DigitRun(s[1..]) else 0
  }

  /** Digits followed by a non-digit: the run ends exactly where the digits do. */
  lemma {:induction false} DigitRunOf(d: string, rest: string)
    requires AllDigits(d) && (rest == [] || !IsDigit(rest[0]))
    ensures DigitRun(d + rest) == |d|
    decreases |d|
  {
    if d == [] {
      assert d + rest == rest;
    } else {
      assert (d + rest)[1..] == d[1..] + rest;
      DigitRunOf(d[1..], rest);
    }
  }

  /**
   * Two images of one batch never share an id, whatever the clock said for each:
   * the dash is the first non-digit, so the id gives back its index.
   */
  lemma ResultIdsDistinct(now1: nat, i: nat, now2: nat, j: nat)
    requires i != j
    ensures ResultId(now1, i) != ResultId(now2, j)
  {
    var d1, d2 := Decimal(now1), Decimal(now2);
    var k := ResultId(now1, i);
    if k == ResultId(now2, j) {
      assert k == d1 + ("-" + Decimal(i));
      assert k == d2 + ("-" + Decimal(j));
      DigitRunOf(d1, "-" + Decimal(i));
      DigitRunOf(d2, "-" + Decimal(j));
      assert Decimal(i) == k[|d1| + 1..];
      assert Decimal(j) == k[|d2| + 1..];
      DecimalInjective(i, j);
    }
  }

  /**
   * The cards for a batch: each descriptor tagged with its id and the prompt, not a
   * favourite; `clock[i]` is the reading taken for card `i`.
   */
  function Tagged(images: seq<ImageDescriptor>, prompt: string, clock: seq<nat>): (r: seq<GeneratedImage>)
    requires |clock| == |images|
    ensures |r| == |images|
  {
    seq(|images|, i requires 0 <= i < |images| =>
      GeneratedImage(images[i].url, images[i].model, images[i].qualityTenths, ResultId(clock[i], i), prompt, false))
  }

  /** The cards of a batch keep the server's order, are all unflagged and have distinct ids. */
  lemma TaggedCards(images: seq<ImageDescriptor>, prompt: string, clock: seq<nat>)
    requires |clock| == |images|
    ensures var r := Tagged(images, prompt, clock);
      && (forall i :: 0 <= i < |r| ==>
            r[i].url == images[i].url && r[i].model == images[i].model && !r[i].isFavorite && r[i].prompt == prompt)
      && (forall i, j :: 0 <= i < j < |r| ==> r[i].id != r[j].id)
  {
    var r := Tagged(images, prompt, clock);
    forall i, j | 0 <= i < j < |r| ensures r[i].id != r[j].id {
      ResultIdsDistinct(clock[i], i, clock[j], j);
    }
  }

  /** `src.includes('?') ? `${src}&bust=${t}` : `${src}?bust=${t}`` */
  function CacheBust(src: string, now: nat): (r: string)
    ensures |r| > |src| && r[..|src|] == src
  {
    if '?' in src then src + "&bust=" + Decimal(now) else src + "?bust=" + Decimal(now)
  }

  /**
   * The rewrite never adds a second query marker: a URL without `?` gains exactly
   * one, and a URL with a query keeps its count.
   */
  lemma {:induction false} CacheBustQueryMarks(src: string, now: nat)
    ensures Count(CacheBust(src, now), '?') == if '?' in src then Count(src, '?') else 1
  {
    var d := Decimal(now);
    CountZeroIffAbsent(src, '?');
    CountZeroIffAbsent(d, '?');
    if '?' in src {
      CountAppend(src, "&bust=", '?');
      CountAppend(src + "&bust=", d, '?');
      assert Count("&bust=", '?') == 0 by { CountZeroIffAbsent("&bust=", '?'); }
    } else {
      CountAppend(src, "?bust=", '?');
      CountAppend(src + "?bust=", d, '?');
      assert Count("?bust=", '?') == 1 by {
        assert "?bust="[1..] == "bust=";
        CountZeroIffAbsent("bust=", '?');
      }
    }
  }

  // ---------------------------------------------------------------------------
  // The image with a load fallback

  /**
   * The `'loading' | 'loaded' | 'error'` state of the image. No handler ever sets
   * `'error'`: a failed load only retries, so `Failed` is never reached.
   */
  datatype LoadState = Loading | Loaded | Failed

  /** `ImageWithFallback`: the source it was given, the source it shows, and its load state. */
  class FallbackImage {
    const src: string
    var currentSrc: string
    var state: LoadState

    constructor (src: string)
      ensures this.src == src && currentSrc == src && state == Loading
    {
      this.src := src;
      currentSrc := src;
      state := Loading;
    }

    method HandleImageLoad()
      modifies this
      ensures state == Loaded && currentSrc == old(currentSrc)
    {
      state := Loaded;
    }

    /**
     * `handleImageError`: retry with a cache-busted copy of the ORIGINAL source, so
     * repeated failures never pile up bust parameters.
     */
    method HandleImageError(now: nat)
      modifies this
      ensures currentSrc == CacheBust(src, now)
      ensures Count(currentSrc, '?') == if '?' in src then Count(src, '?') else 1
      ensures state == old(state)
    {
      currentSrc := CacheBust(src, now);
      CacheBustQueryMarks(src, now);
    }
  }

  // ---------------------------------------------------------------------------
  // The generator page

  class GeneratorPage {
    var prompt: string
    var style: string
    var aspectRatio: string
    var imageCount: int
    var results: seq<GeneratedImage>
    var favorites: seq<GeneratedImage>
    var variationImages: seq<VariationImage>
    var creatingVariations: set<string>

    /** The initial state: an empty prompt, photorealistic 16:9, five images, empty lists. */
    constructor ()
      ensures prompt == "" && style == "photorealistic" && aspectRatio == "16:9" && imageCount == 5
      ensures results == [] && favorites == [] && variationImages == [] && creatingVariations == {}
    {
      prompt := "";
      style := "photorealistic";
      aspectRatio := "16:9";
      imageCount := 5;
      results := [];
      favorites := [];
      variationImages := [];
      creatingVariations := {};
    }

    /** The form fields (prompt, style, ratio, count) are as they were. */
    twostate predicate FormUnchanged()
      reads this
    {
      prompt == old(prompt) && style == old(style) && aspectRatio == old(aspectRatio)
      && imageCount == old(imageCount)
    }

    /** `toggleFavorite(id)` */
    method ToggleFavorite(id: string)
      modifies this
      ensures Lists(results, favorites) == ToggleLists(Lists(old(results), old(favorites)), id)
      ensures variationImages == old(variationImages) && creatingVariations == old(creatingVariations)
      ensures FormUnchanged()
    {
      var found := FindIndex(results, id);
      if found.None? {
        return;
      }
      var image := results[found.value];
      if image.isFavorite {
        favorites := WithoutId(favorites, id);
        results := SetFavoriteFlag(results, id, false);
      } else {
        favorites := favorites + [image.(isFavorite := true)];
        results := SetFavoriteFlag(results, id, true);
      }
    }

    /**
     * `handleGenerate`: a blank prompt changes nothing and sends nothing; otherwise
     * the results and variations are cleared and the form is sent.
     */
    method HandleGenerate() returns (sent: Option<GenerateRequest>)
      modifies this
      ensures Trim(old(prompt)) == [] ==> sent.None? && results == old(results) && variationImages == old(variationImages)
      ensures Trim(old(prompt)) != [] ==>
        && sent == Some(GenerateRequest(prompt, style, aspectRatio, imageCount))
        && results == [] && variationImages == []
      ensures favorites == old(favorites) && creatingVariations == old(creatingVariations)
      ensures FormUnchanged()
    {
      if Trim(prompt) == [] {
        return None;
      }
      results := [];
      variationImages := [];
      sent := Some(GenerateRequest(prompt, style, aspectRatio, imageCount));
    }

    /** `handleGenerateMore`: like generating, but the lists are kept. */
    method HandleGenerateMore() returns (sent: Option<GenerateRequest>)
      ensures Trim(prompt) == [] <==> sent.None?
      ensures sent.Some? ==> sent.value == GenerateRequest(prompt, style, aspectRatio, imageCount)
    {
      if Trim(prompt) == [] {
        return None;
      }
      sent := Some(GenerateRequest(prompt, style, aspectRatio, imageCount));
    }

    /** The generate mutation's `onSuccess`: the batch's cards go after the existing results. */
    method OnGenerateSuccess(images: seq<ImageDescriptor>, clock: seq<nat>)
      requires |clock| == |images|
      modifies this
      ensures results == old(results) + Tagged(images, prompt, clock)
      ensures favorites == old(favorites) && variationImages == old(variationImages)
      ensures creatingVariations == old(creatingVariations) && FormUnchanged()
    {
      results := results + Tagged(images, prompt, clock);
    }

    /** `handleCreateVariation`: the URL is marked in flight and the request is sent. */
    method HandleCreateVariation(imageUrl: string, prompt': string, variationType: string)
      returns (sent: VariationRequest)
      modifies this
      ensures creatingVariations == old(creatingVariations) + {imageUrl}
      ensures sent == VariationRequest(imageUrl, variationType, prompt')
      ensures results == old(results) && favorites == old(favorites) && variationImages == old(variationImages)
      ensures FormUnchanged()
    {
      creatingVariations := creatingVariations + {imageUrl};
      sent := VariationRequest(imageUrl, variationType, prompt');
    }

    /**
     * The variation mutation's `onSuccess`: the variation is appended under a fresh
     * `variation-<time>-<random>` id and its URL leaves the in-flight set.
     */
    method OnVariationSuccess(data: VariationImage, request: VariationRequest, now: nat, randomText: string)
      modifies this
      ensures variationImages == old(variationImages) + [data.(id := "variation-" + Decimal(now) + "-" + randomText)]
      ensures creatingVariations == old(creatingVariations) - {request.imageUrl}
      ensures results == old(results) && favorites == old(favorites) && FormUnchanged()
    {
      variationImages := variationImages + [data.(id := "variation-" + Decimal(now) + "-" + randomText)];
      creatingVariations := creatingVariations - {request.imageUrl};
    }

    /** The variation mutation's `onError`: only the URL leaves the in-flight set. */
    method OnVariationError(request: VariationRequest)
      modifies this
      ensures creatingVariations == old(creatingVariations) - {request.imageUrl}
      ensures results == old(results) && favorites == old(favorites) && variationImages == old(variationImages)
      ensures FormUnchanged()
    {
      creatingVariations := creatingVariations - {request.imageUrl};
    }
  }

  /**
   * The in-flight marker is a set of URLs: if the handlers are called to start two
   * variations of one URL and the first finishes, by success or by error, the URL is no
   * longer marked; every other URL keeps its mark. The page itself never starts the
   * second request, because a card's variation button is disabled while its URL is
   * marked.
   */
  method InFlightSetForgetsDuplicates(page: GeneratorPage, url: string, prompt': string, variationType: string,
                                      succeeded: bool, data: VariationImage, now: nat, randomText: string)
    modifies page
    ensures url !in page.creatingVariations
    ensures page.creatingVariations == old(page.creatingVariations) - {url}
  {
    var first := page.HandleCreateVariation(url, prompt', variationType);
    var second := page.HandleCreateVariation(url, prompt', variationType);
    if succeeded {
      page.OnVariationSuccess(data, first, now, randomText);
    } else {
      page.OnVariationError(first);
    }
  }
}
