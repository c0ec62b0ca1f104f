/** components/ResultGallery.tsx: the cards shown for the results, in results
    order, each labelled with its style's localized name and offering a
    download under a name made from the result's id, and the full-screen
    preview opened by clicking a card, which locks the page's scrolling while
    it is open. */
module ResultGallery {
  import opened Types
  import Text
  import Constants

  /** The label shown for a result whose style id is not in the catalog. */
  const UNKNOWN_STYLE: string := "Unknown Style"

  /** The badge label of a result: the style's name in the current language,
      or the fallback when the catalog has no such style. */
  function StyleName(catalog: seq<StyleProfile>, styleId: string, lang: Language): (r: string)
    ensures Constants.FindById(catalog, styleId).Some? ==>
      r == if lang == Zh then Constants.FindById(catalog, styleId).value.name_zh
           else Constants.FindById(catalog, styleId).value.name
  {
    match Constants.FindById(catalog, styleId)
    case None => UNKNOWN_STYLE
    case Some(style) => if lang == Zh then style.name_zh else style.name
  }

  /** In the catalog, the fallback label appears exactly for unknown style ids. */
  lemma FallbackIffUnknown(styleId: string, lang: Language)
    ensures StyleName(Constants.STYLES, styleId, lang) == UNKNOWN_STYLE
        <==> forall k :: 0 <= k < |Constants.STYLES| ==> Constants.STYLES[k].id != styleId
  {
    var found := Constants.FindById(Constants.STYLES, styleId);
    if found.Some? {
      var k :| 0 <= k < |Constants.STYLES| && Constants.STYLES[k] == found.value;
      Constants.CatalogNamesNotFallback();
      assert Constants.STYLES[k].id == styleId;
    }
  }

  /** The catalog's own styles are labelled with their names. */
  lemma CatalogStyleNames(i: nat, lang: Language)
    requires i < |Constants.STYLES|
    ensures StyleName(Constants.STYLES, Constants.STYLES[i].id, lang)
         == if lang == Zh then Constants.STYLES[i].name_zh else Constants.STYLES[i].name
  {
    Constants.FindStyleOfEntry(i);
  }

  const DOWNLOAD_PREFIX: string := "nano-banana-"
  const DOWNLOAD_SUFFIX: string := ".png"

  /** `nano-banana-${id}.png`. */
  function DownloadFilename(id: string): (r: string)
    ensures |r| == |DOWNLOAD_PREFIX| + |id| + |DOWNLOAD_SUFFIX|
    ensures Text.StartsWith(r, DOWNLOAD_PREFIX)
  {
    var r := DOWNLOAD_PREFIX + id + DOWNLOAD_SUFFIX;
    assert r[..|DOWNLOAD_PREFIX|] == DOWNLOAD_PREFIX;
    r
  }

  /** The id a download name was made from, if it has the download name's shape. */
  function FilenameId(name: string): (r: Option<string>)
    ensures r.Some? ==> |r.value| == |name| - |DOWNLOAD_PREFIX| - |DOWNLOAD_SUFFIX|
  {
    if |name| >= |DOWNLOAD_PREFIX| + |DOWNLOAD_SUFFIX|
       && name[..|DOWNLOAD_PREFIX|] == DOWNLOAD_PREFIX
       && name[|name| - |DOWNLOAD_SUFFIX|..] == DOWNLOAD_SUFFIX
    then Some(name[|DOWNLOAD_PREFIX|..|name| - |DOWNLOAD_SUFFIX|])
    else None
  }

  /** The id can be read back from its download name. */
  lemma FilenameRoundTrip(id: string)
    ensures FilenameId(DownloadFilename(id)) == Some(id)
  {
    var name := DownloadFilename(id);
    assert name == DOWNLOAD_PREFIX + id + DOWNLOAD_SUFFIX;
    assert name[..|DOWNLOAD_PREFIX|] == DOWNLOAD_PREFIX;
    assert name[|name| - |DOWNLOAD_SUFFIX|..] == DOWNLOAD_SUFFIX;
    assert name[|DOWNLOAD_PREFIX|..|name| - |DOWNLOAD_SUFFIX|] == id;
  }

  /** Distinct result ids give distinct download names. */
  lemma FilenameInjective(a: string, b: string)
    requires DownloadFilename(a) == DownloadFilename(b)
    ensures a == b
  {
    FilenameRoundTrip(a);
    FilenameRoundTrip(b);
  }

  /** One card of the grid: its React key, the picture and its caption, the
      style badge, the download name and the CSS animation delay. */
  datatype Card = Card(
    key: string,
    imageUrl: string,
    caption: string,
    icon: Option<string>,
    styleName: string,
    downloadName: string,
    animationDelay: string)

  /** `${index * 150}ms`. */
  function AnimationDelay(index: nat): string {
    Text.NatToString(index * 150) + "ms"
  }

  /** The delay reads back as 150 milliseconds per position. */
  lemma AnimationDelayMeaning(index: nat)
    ensures var d := AnimationDelay(index);
      && |d| >= 3 && d[|d| - 2..] == "ms"
      && Text.IsDigits(d[..|d| - 2]) && Text.ParseNat(d[..|d| - 2]) == 150 * index
  {
    var digits := Text.NatToString(index * 150);
    var d := AnimationDelay(index);
    assert d[..|d| - 2] == digits;
    assert d[|d| - 2..] == "ms";
    Text.ParseNatToString(index * 150);
  }

  /** The card rendered for the result at position `index`. */
  function CardFor(catalog: seq<StyleProfile>, result: GenerationResult, index: nat, lang: Language): Card {
    var style := Constants.FindById(catalog, result.styleId);
    Card(result.id, result.imageUrl, result.prompt,
         if style.Some? then Some(style.value.icon) else None,
         StyleName(catalog, result.styleId, lang),
         DownloadFilename(result.id), AnimationDelay(index))
  }

  /** What the gallery renders: nothing for an empty results list, else one
      card per result, in results order. */
  function Cards(catalog: seq<StyleProfile>, results: seq<GenerationResult>, lang: Language): (r: Option<seq<Card>>)
    ensures r.None? <==> |results| == 0
    ensures r.Some? ==> |r.value| == |results|
  {
    if |results| == 0 then None
    else Some(seq(|results|, i requires 0 <= i < |results| => CardFor(catalog, results[i], i, lang)))
  }

  /** Card `i` shows result `i`: its picture, its prompt, its id as key and in
      the download name, its style's label, and a delay growing with `i`. */
  lemma CardsFollowResults(catalog: seq<StyleProfile>, results: seq<GenerationResult>, lang: Language, i: nat)
    requires i < |results|
    ensures var cards := Cards(catalog, results, lang).value;
      && cards[i].key == results[i].id
      && cards[i].imageUrl == results[i].imageUrl
      && cards[i].caption == results[i].prompt
      && cards[i].styleName == StyleName(catalog, results[i].styleId, lang)
      && FilenameId(cards[i].downloadName) == Some(results[i].id)
      && Text.ParseNat(cards[i].animationDelay[..|cards[i].animationDelay| - 2]) == 150 * i
  {
    FilenameRoundTrip(results[i].id);
    AnimationDelayMeaning(i);
  }

  /** Prepending new results shifts the earlier cards back by one position
      each, re-timing their animation but keeping what they show. */
  lemma PrependShiftsCards(catalog: seq<StyleProfile>, added: seq<GenerationResult>,
                           earlier: seq<GenerationResult>, lang: Language, j: nat)
    requires j < |earlier|
    ensures var cards := Cards(catalog, added + earlier, lang).value;
      var before := Cards(catalog, earlier, lang).value;
      cards[|added| + j] == before[j].(animationDelay := AnimationDelay(|added| + j))
  {
    assert (added + earlier)[|added| + j] == earlier[j];
  }

  /** When a result is selected the page may not scroll. */
  function BodyOverflowFor(selected: Option<GenerationResult>): string {
    if selected.Some? then "hidden" else "auto"
  }

  lemma BodyOverflowHiddenIffSelected(selected: Option<GenerationResult>)
    ensures BodyOverflowFor(selected) == "hidden" <==> selected.Some?
  {
    assert "auto"[0] != "hidden"[0];
  }

  /** The preview modal's download name. */
  function ModalDownloadName(selected: GenerationResult): string {
    DownloadFilename(selected.id)
  }

  /** The modal offers the same download name as the card it was opened from. */
  lemma ModalNameMatchesCard(catalog: seq<StyleProfile>, results: seq<GenerationResult>, lang: Language, i: nat)
    requires i < |results|
    ensures ModalDownloadName(results[i]) == Cards(catalog, results, lang).value[i].downloadName
  {
  }

  /** The component's `selectedResult` state and the scroll lock that follows it. */
  class Gallery {
    var selectedResult: Option<GenerationResult>
    /** `document.body.style.overflow`. */
    var bodyOverflow: string

    /** Mounting: nothing selected, and the effect sets 'auto'. */
    constructor ()
      ensures selectedResult.None? && bodyOverflow == "auto"
    {
      selectedResult := None;
      bodyOverflow := "auto";
    }

    /** A card click, followed by the effect. */
    method OpenResult(result: GenerationResult)
      modifies this
      ensures selectedResult == Some(result) && bodyOverflow == "hidden"
    {
      selectedResult := Some(result);
      bodyOverflow := BodyOverflowFor(selectedResult);
    }

    /** A click on the backdrop or on the close button, followed by the effect. */
    method Close()
      modifies this
      ensures selectedResult.None? && bodyOverflow == "auto"
    {
      selectedResult := None;
      bodyOverflow := BodyOverflowFor(selectedResult);
    }

    /** Unmounting: the effect's cleanup unlocks scrolling. */
    method Unmount()
      modifies this`bodyOverflow
      ensures bodyOverflow == "auto"
    {
      bodyOverflow := "auto";
    }
  }
}
