/** App.tsx: the selection list and its toggle, the language and theme
    switches, and handleGenerate, which runs one generation call per selected
    style, keeps the successes in selection order and either prepends them to
    the earlier results or reports a single error.

    The awaited calls are taken one after the other in selection order (the
    order Promise.all reports them in). What the outside world supplies to a
    batch is a parameter: the environment's API key and, for each selected id,
    an Attempt holding the API's reply to that style's request and the values
    Date.now()/Math.random() give the result's id and timestamp. */
module App {
  import opened Types
  import Text
  import Constants
  import opened GeminiService

  // ---------------------------------------------------------------------------
  // Selection list

  /** `a` is `b` with some elements left out, the rest in their order. */
  predicate IsSubsequence<T(==)>(a: seq<T>, b: seq<T>)
    decreases |b|
  {
    if |a| == 0 then true
    else if |b| == 0 then false
    else if a[0] == b[0] then IsSubsequence(a[1..], b[1..])
    else IsSubsequence(a, b[1..])
  }

  lemma {:induction false} IsSubsequenceCons<T>(x: T, a: seq<T>, b: seq<T>)
    requires IsSubsequence(a, b)
    ensures IsSubsequence(a, [x] + b)
    decreases |b|, 1
  {
    var xb := [x] + b;
    assert xb[1..] == b;
    if |a| > 0 && a[0] == x {
      IsSubsequenceDropHead(a, b);
    }
  }

  /** Dropping the head of `a` keeps it a subsequence. */
  lemma {:induction false} IsSubsequenceDropHead<T>(a: seq<T>, b: seq<T>)
    requires |a| > 0 && IsSubsequence(a, b)
    ensures IsSubsequence(a[1..], b)
    decreases |b|, 0
  {
    if a[0] == b[0] {
      IsSubsequenceCons(b[0], a[1..], b[1..]);
      assert [b[0]] + b[1..] == b;
    } else {
      IsSubsequenceDropHead(a, b[1..]);
      IsSubsequenceCons(b[0], a[1..], b[1..]);
      assert [b[0]] + b[1..] == b;
    }
  }

  /** `prev.filter(s => s !== id)`: every occurrence of `id` removed, the other
      ids kept with their multiplicities and in their relative order. */
  function Without(s: seq<string>, id: string): (r: seq<string>)
    ensures id !in r
    ensures multiset(r) == multiset(s)[id := 0]
    ensures IsSubsequence(r, s)
    decreases |s|
  {
    if |s| == 0 then []
    else
      var rest := Without(s[1..], id);
      assert s == [s[0]] + s[1..];
      if s[0] == id then
        IsSubsequenceCons(s[0], rest, s[1..]);
        rest
      else
        assert ([s[0]] + rest)[1..] == rest;
        [s[0]] + rest
  }

  /** toggleStyle's update of the selection. */
  function Toggle(prev: seq<string>, id: string): seq<string> {
    if id in prev then Without(prev, id) else prev + [id]
  }

  /** An absent id is appended at the end; a present id is removed with all its
      occurrences; every other id keeps its count, and what remains of the old
      list keeps its order. */
  lemma ToggleMeaning(prev: seq<string>, id: string)
    ensures id !in prev ==> Toggle(prev, id) == prev + [id]
    ensures id in prev ==> id !in Toggle(prev, id) && IsSubsequence(Toggle(prev, id), prev)
    ensures id in Toggle(prev, id) <==> id !in prev
    ensures forall x :: x != id ==> multiset(Toggle(prev, id))[x] == multiset(prev)[x]
  {
  }

  lemma {:induction false} WithoutAbsent(s: seq<string>, id: string)
    requires id !in s
    ensures Without(s, id) == s
    decreases |s|
  {
    if |s| > 0 {
      WithoutAbsent(s[1..], id);
      assert s == [s[0]] + s[1..];
    }
  }

  lemma {:induction false} WithoutConcat(a: seq<string>, b: seq<string>, id: string)
    ensures Without(a + b, id) == Without(a, id) + Without(b, id)
    decreases |a|
  {
    if |a| > 0 {
      assert (a + b)[1..] == a[1..] + b;
      WithoutConcat(a[1..], b, id);
    } else {
      assert a + b == b;
    }
  }

  /** Toggling an absent id twice gives the list back. */
  lemma ToggleTwiceAbsent(prev: seq<string>, id: string)
    requires id !in prev
    ensures Toggle(Toggle(prev, id), id) == prev
  {
    WithoutConcat(prev, [id], id);
    WithoutAbsent(prev, id);
    assert Without([id], id) == [];
  }

  /** Toggling a present id twice moves it to the end of the list. */
  lemma ToggleTwicePresent(prev: seq<string>, id: string)
    requires id in prev
    ensures Toggle(Toggle(prev, id), id) == Without(prev, id) + [id]
  {
  }

  /** No id occurs twice. */
  ghost predicate NoDuplicates(s: seq<string>) {
    forall x :: multiset(s)[x] <= 1
  }

  /** Toggling never introduces a duplicate. */
  lemma ToggleKeepsNoDuplicates(prev: seq<string>, id: string)
    requires NoDuplicates(prev)
    ensures NoDuplicates(Toggle(prev, id))
  {
    if id !in prev {
      assert multiset(prev)[id] == 0;
      assert forall x :: multiset(prev + [id])[x] == multiset(prev)[x] + multiset([id])[x];
    }
  }

  /** The selection after a series of card clicks. */
  function ToggleAll(s: seq<string>, clicks: seq<string>): seq<string>
    decreases |clicks|
  {
    if |clicks| == 0 then s else ToggleAll(Toggle(s, clicks[0]), clicks[1..])
  }

  /** Every selection reachable from the initial empty one is duplicate-free. */
  lemma {:induction false} ReachableSelectionsHaveNoDuplicates(s: seq<string>, clicks: seq<string>)
    requires NoDuplicates(s)
    ensures NoDuplicates(ToggleAll(s, clicks))
    decreases |clicks|
  {
    if |clicks| > 0 {
      ToggleKeepsNoDuplicates(s, clicks[0]);
      ReachableSelectionsHaveNoDuplicates(Toggle(s, clicks[0]), clicks[1..]);
    }
  }

  // ---------------------------------------------------------------------------
  // Language and theme switches

  /** `l === 'en' ? 'zh' : 'en'`. */
  function NextLanguage(l: Language): (r: Language)
    ensures r != l
  {
    if l == En then Zh else En
  }

  /** `t === 'light' ? 'dark' : 'light'`. */
  function NextTheme(t: Theme): (r: Theme)
    ensures r != t
  {
    if t == Light then Dark else Light
  }

  // ---------------------------------------------------------------------------
  // The batch

  /** What the outside world supplies for one selected id. */
  datatype Attempt = Attempt(remote: Result<Response, string>, resultId: string, timestamp: int)

  /** One style's contribution: its result or null, the request sent for it
      (None when none was sent) and the client handle afterwards. */
  datatype Step = Step(outcome: Option<GenerationResult>, sent: Option<Request>, client: Option<Client>)

  /** The body of the `selectedStyles.map` callback for one id. */
  function StyleOutcome(catalog: seq<StyleProfile>, handle: Option<Client>, apiKey: Option<string>, prompt: string,
                        baseImage: Option<File>, styleId: string, a: Attempt): (r: Step)
    ensures r.client == if Constants.FindById(catalog, styleId).Some? then ClientAfter(handle, apiKey) else handle
    ensures r.sent.Some? ==> |r.sent.value.parts| >= 1
  {
    match Constants.FindById(catalog, styleId)
    case None => Step(None, None, handle)
    case Some(style) =>
      var o := ServiceCall(handle, apiKey, prompt, style.promptInstruction, baseImage, a.remote);
      ServiceCallMeaning(handle, apiKey, prompt, style.promptInstruction, baseImage, a.remote);
      if o.result.Success? then
        Step(Some(GenerationResult(a.resultId, style.id, o.result.value, prompt, a.timestamp)), o.sent, o.client)
      else
        Step(None, o.sent, o.client)
  }

  /** The settled batch: one outcome and one (possible) request per selected id. */
  datatype Batch = Batch(outcomes: seq<Option<GenerationResult>>, sent: seq<Option<Request>>, client: Option<Client>)

  /** The steps taken one after the other in selection order, each finding
      the handle the previous one left. */
  function RunBatch(catalog: seq<StyleProfile>, handle: Option<Client>, apiKey: Option<string>, prompt: string,
                    baseImage: Option<File>, ids: seq<string>, attempts: seq<Attempt>): (b: Batch)
    requires |attempts| == |ids|
    ensures |b.outcomes| == |ids| && |b.sent| == |ids|
    decreases |ids|
  {
    if |ids| == 0 then Batch([], [], handle)
    else
      var n := |ids| - 1;
      var before := RunBatch(catalog, handle, apiKey, prompt, baseImage, ids[..n], attempts[..n]);
      var step := StyleOutcome(catalog, before.client, apiKey, prompt, baseImage, ids[n], attempts[n]);
      Batch(before.outcomes + [step.outcome], before.sent + [step.sent], step.client)
  }

  /** One more selected id adds that id's step, taken with the handle the earlier steps left. */
  lemma RunBatchExtend(catalog: seq<StyleProfile>, handle: Option<Client>, apiKey: Option<string>, prompt: string,
                       baseImage: Option<File>, ids: seq<string>, attempts: seq<Attempt>, i: nat)
    requires |attempts| == |ids| && i < |ids|
    ensures var before := RunBatch(catalog, handle, apiKey, prompt, baseImage, ids[..i], attempts[..i]);
      var step := StyleOutcome(catalog, before.client, apiKey, prompt, baseImage, ids[i], attempts[i]);
      RunBatch(catalog, handle, apiKey, prompt, baseImage, ids[..i + 1], attempts[..i + 1])
        == Batch(before.outcomes + [step.outcome], before.sent + [step.sent], step.client)
  {
    assert ids[..i + 1][..i] == ids[..i];
    assert attempts[..i + 1][..i] == attempts[..i];
  }

  /** Some selected id is in the catalog. */
  predicate AnyKnown(catalog: seq<StyleProfile>, ids: seq<string>) {
    exists i :: 0 <= i < |ids| && Constants.FindById(catalog, ids[i]).Some?
  }

  /** What `Promise.all` collects: each id's step taken with the handle the
      batch started with, since the steps do not depend on each other. */
  function Outcomes(catalog: seq<StyleProfile>, handle: Option<Client>, apiKey: Option<string>, prompt: string,
                    baseImage: Option<File>, ids: seq<string>, attempts: seq<Attempt>): (r: seq<Option<GenerationResult>>)
    requires |attempts| == |ids|
    ensures |r| == |ids|
  {
    seq(|ids|, i requires 0 <= i < |ids| => StyleOutcome(catalog, handle, apiKey, prompt, baseImage, ids[i], attempts[i]).outcome)
  }

  /** The request each selected id's call sent, if it sent one. */
  function Requests(catalog: seq<StyleProfile>, handle: Option<Client>, apiKey: Option<string>, prompt: string,
                    baseImage: Option<File>, ids: seq<string>, attempts: seq<Attempt>): (r: seq<Option<Request>>)
    requires |attempts| == |ids|
    ensures |r| == |ids|
  {
    seq(|ids|, i requires 0 <= i < |ids| => StyleOutcome(catalog, handle, apiKey, prompt, baseImage, ids[i], attempts[i]).sent)
  }

  /** The handle after a batch: getAiClient ran once some id was found in the catalog. */
  function ClientAfterBatch(catalog: seq<StyleProfile>, handle: Option<Client>, apiKey: Option<string>,
                            ids: seq<string>): Option<Client> {
    if AnyKnown(catalog, ids) then ClientAfter(handle, apiKey) else handle
  }

  /** A step taken after getAiClient already ran produces what it would have
      produced with the original handle, and leaves the same handle. */
  lemma StepAfterClient(catalog: seq<StyleProfile>, handle: Option<Client>, apiKey: Option<string>, prompt: string,
                        baseImage: Option<File>, styleId: string, a: Attempt)
    ensures var s := StyleOutcome(catalog, ClientAfter(handle, apiKey), apiKey, prompt, baseImage, styleId, a);
      var t := StyleOutcome(catalog, handle, apiKey, prompt, baseImage, styleId, a);
      s.outcome == t.outcome && s.sent == t.sent && s.client == ClientAfter(handle, apiKey)
  {
    ClientLifecycle(handle, apiKey, apiKey);
  }

  /** The independent outcomes and requests of all ids but the last, then the last one's. */
  lemma IndependentExtend(catalog: seq<StyleProfile>, handle: Option<Client>, apiKey: Option<string>, prompt: string,
                          baseImage: Option<File>, ids: seq<string>, attempts: seq<Attempt>)
    requires |attempts| == |ids| && |ids| > 0
    ensures var n := |ids| - 1;
      var own := StyleOutcome(catalog, handle, apiKey, prompt, baseImage, ids[n], attempts[n]);
      && Outcomes(catalog, handle, apiKey, prompt, baseImage, ids, attempts)
           == Outcomes(catalog, handle, apiKey, prompt, baseImage, ids[..n], attempts[..n]) + [own.outcome]
      && Requests(catalog, handle, apiKey, prompt, baseImage, ids, attempts)
           == Requests(catalog, handle, apiKey, prompt, baseImage, ids[..n], attempts[..n]) + [own.sent]
  {
    var n := |ids| - 1;
    var own := StyleOutcome(catalog, handle, apiKey, prompt, baseImage, ids[n], attempts[n]);
    var outs := Outcomes(catalog, handle, apiKey, prompt, baseImage, ids, attempts);
    var reqs := Requests(catalog, handle, apiKey, prompt, baseImage, ids, attempts);
    var outs' := Outcomes(catalog, handle, apiKey, prompt, baseImage, ids[..n], attempts[..n]) + [own.outcome];
    var reqs' := Requests(catalog, handle, apiKey, prompt, baseImage, ids[..n], attempts[..n]) + [own.sent];
    forall k | 0 <= k < |ids| ensures outs[k] == outs'[k] && reqs[k] == reqs'[k] {
      if k < n {
        assert ids[..n][k] == ids[k] && attempts[..n][k] == attempts[k];
      }
    }
    assert outs == outs';
    assert reqs == reqs';
  }

  /** The handle after all ids is the last step's, taken with the handle after the others. */
  lemma ClientAfterBatchExtend(catalog: seq<StyleProfile>, handle: Option<Client>, apiKey: Option<string>, prompt: string,
                               baseImage: Option<File>, ids: seq<string>, attempts: seq<Attempt>)
    requires |attempts| == |ids| && |ids| > 0
    ensures var n := |ids| - 1;
      var c := ClientAfterBatch(catalog, handle, apiKey, ids[..n]);
      var step := StyleOutcome(catalog, c, apiKey, prompt, baseImage, ids[n], attempts[n]);
      var own := StyleOutcome(catalog, handle, apiKey, prompt, baseImage, ids[n], attempts[n]);
      step.outcome == own.outcome && step.sent == own.sent
      && step.client == ClientAfterBatch(catalog, handle, apiKey, ids)
  {
    var n := |ids| - 1;
    if AnyKnown(catalog, ids[..n]) {
      StepAfterClient(catalog, handle, apiKey, prompt, baseImage, ids[n], attempts[n]);
      ClientLifecycle(handle, apiKey, apiKey);
      var k :| 0 <= k < n && Constants.FindById(catalog, ids[..n][k]).Some?;
      assert ids[k] == ids[..n][k];
    } else if Constants.FindById(catalog, ids[n]).Some? {
    } else {
      forall k | 0 <= k < |ids| ensures Constants.FindById(catalog, ids[k]).None? {
        if k < n {
          assert ids[k] == ids[..n][k];
        }
      }
    }
  }

  /** Taking the steps one after the other, each with the handle its
      predecessor left, gives exactly the independent per-id outcomes and
      requests: the order in which the calls reach getAiClient does not matter. */
  lemma {:induction false} SequentialIsIndependent(catalog: seq<StyleProfile>, handle: Option<Client>,
                                                   apiKey: Option<string>, prompt: string, baseImage: Option<File>,
                                                   ids: seq<string>, attempts: seq<Attempt>)
    requires |attempts| == |ids|
    ensures RunBatch(catalog, handle, apiKey, prompt, baseImage, ids, attempts)
         == Batch(Outcomes(catalog, handle, apiKey, prompt, baseImage, ids, attempts),
                  Requests(catalog, handle, apiKey, prompt, baseImage, ids, attempts),
                  ClientAfterBatch(catalog, handle, apiKey, ids))
    decreases |ids|
  {
    if |ids| > 0 {
      var n := |ids| - 1;
      SequentialIsIndependent(catalog, handle, apiKey, prompt, baseImage, ids[..n], attempts[..n]);
      IndependentExtend(catalog, handle, apiKey, prompt, baseImage, ids, attempts);
      ClientAfterBatchExtend(catalog, handle, apiKey, prompt, baseImage, ids, attempts);
    }
  }

  /** `newResults.filter(r => r !== null)`. */
  function Successes(outcomes: seq<Option<GenerationResult>>): seq<GenerationResult>
    decreases |outcomes|
  {
    if |outcomes| == 0 then []
    else (if outcomes[0].Some? then [outcomes[0].value] else []) + Successes(outcomes[1..])
  }

  /** The filter commutes with concatenation, so it keeps the order of the outcomes. */
  lemma {:induction false} SuccessesConcat(a: seq<Option<GenerationResult>>, b: seq<Option<GenerationResult>>)
    ensures Successes(a + b) == Successes(a) + Successes(b)
    decreases |a|
  {
    if |a| == 0 {
      assert a + b == b;
    } else {
      assert (a + b)[0] == a[0];
      assert (a + b)[1..] == a[1..] + b;
      SuccessesConcat(a[1..], b);
      var h: seq<GenerationResult> := if a[0].Some? then [a[0].value] else [];
      assert Successes(a + b) == h + Successes(a[1..] + b);
      assert Successes(a) == h + Successes(a[1..]);
      assert h + (Successes(a[1..]) + Successes(b)) == (h + Successes(a[1..])) + Successes(b);
    }
  }

  /** The filter keeps each success as often as it occurs and drops the nulls:
      there are as many results as outcomes that are not null. */
  lemma {:induction false} SuccessesCount(outcomes: seq<Option<GenerationResult>>)
    ensures forall x :: multiset(Successes(outcomes))[x] == multiset(outcomes)[Some(x)]
    ensures |Successes(outcomes)| == |outcomes| - multiset(outcomes)[None]
    decreases |outcomes|
  {
    if |outcomes| > 0 {
      SuccessesCount(outcomes[1..]);
      assert outcomes == [outcomes[0]] + outcomes[1..];
      assert multiset(outcomes) == multiset([outcomes[0]]) + multiset(outcomes[1..]);
    }
  }

  /** Nothing succeeded exactly when every outcome is null. */
  lemma {:induction false} SuccessesEmptyIff(outcomes: seq<Option<GenerationResult>>)
    ensures |Successes(outcomes)| == 0 <==> forall i :: 0 <= i < |outcomes| ==> outcomes[i].None?
    decreases |outcomes|
  {
    if |outcomes| > 0 {
      SuccessesEmptyIff(outcomes[1..]);
      assert forall i :: 1 <= i < |outcomes| ==> outcomes[i] == outcomes[1..][i - 1];
    }
  }

  /** The style ids of a result list, position by position. */
  function StyleIdsOf(results: seq<GenerationResult>): seq<string> {
    seq(|results|, k requires 0 <= k < |results| => results[k].styleId)
  }

  /** What each selected id contributes: an id missing from the catalog gives
      no result and sends no request; every result is tagged with its own id,
      echoes the prompt, carries the attempt's id and timestamp and the image
      reference parsed from the reply to that style's request, which was sent
      to MODEL_NAME with a text part holding the prompt and the style's
      instruction. A found style whose call can get a client, read the image
      and parse a reply always yields a result. */
  lemma BatchMeaning(catalog: seq<StyleProfile>, handle: Option<Client>, apiKey: Option<string>, prompt: string,
                     baseImage: Option<File>, ids: seq<string>, attempts: seq<Attempt>, i: nat)
    requires |attempts| == |ids| && i < |ids|
    ensures var outcome := Outcomes(catalog, handle, apiKey, prompt, baseImage, ids, attempts)[i];
      var sent := Requests(catalog, handle, apiKey, prompt, baseImage, ids, attempts)[i];
      var style := Constants.FindById(catalog, ids[i]);
      && (style.None? ==> outcome.None? && sent.None?)
      && (outcome.Some? ==>
            && style.Some?
            && outcome.value.styleId == ids[i]
            && outcome.value.prompt == prompt
            && outcome.value.id == attempts[i].resultId
            && outcome.value.timestamp == attempts[i].timestamp
            && attempts[i].remote.Success?
            && ParseResponse(attempts[i].remote.value) == Success(outcome.value.imageUrl))
      && (sent.Some? ==>
            && style.Some?
            && sent.value.model == Constants.MODEL_NAME
            && |sent.value.parts| >= 1
            && sent.value.parts[|sent.value.parts| - 1]
                 == TextPart(FullPrompt(prompt, style.value.promptInstruction, baseImage.Some?)))
      && ((&& style.Some?
           && (handle.Some? || KeyPresent(apiKey))
           && (baseImage.Some? ==> baseImage.value.contents.Some?)
           && attempts[i].remote.Success?
           && ParseResponse(attempts[i].remote.value).Success?) ==> outcome.Some?)
  {
    var style := Constants.FindById(catalog, ids[i]);
    if style.Some? {
      ServiceCallMeaning(handle, apiKey, prompt, style.value.promptInstruction, baseImage, attempts[i].remote);
    }
  }

  /** A failing style does not prevent the others: changing what happens to
      one selected id changes no other id's outcome. */
  lemma FailureIsolated(catalog: seq<StyleProfile>, handle: Option<Client>, apiKey: Option<string>, prompt: string,
                        baseImage: Option<File>, ids: seq<string>, attempts: seq<Attempt>,
                        i: nat, other: Attempt)
    requires |attempts| == |ids| && i < |ids|
    ensures var b := RunBatch(catalog, handle, apiKey, prompt, baseImage, ids, attempts);
      var b' := RunBatch(catalog, handle, apiKey, prompt, baseImage, ids, attempts[i := other]);
      (forall j :: 0 <= j < |ids| && j != i ==> b'.outcomes[j] == b.outcomes[j]) && b'.client == b.client
  {
    SequentialIsIndependent(catalog, handle, apiKey, prompt, baseImage, ids, attempts);
    SequentialIsIndependent(catalog, handle, apiKey, prompt, baseImage, ids, attempts[i := other]);
  }

  /** A step's effect on the handle is getAiClient's, whatever the reply. */
  lemma StepClient(catalog: seq<StyleProfile>, c: Option<Client>, apiKey: Option<string>, prompt: string, baseImage: Option<File>,
                   styleId: string, a: Attempt, a': Attempt)
    ensures StyleOutcome(catalog, c, apiKey, prompt, baseImage, styleId, a).client
         == StyleOutcome(catalog, c, apiKey, prompt, baseImage, styleId, a').client
  {
  }

  /** With no key and no client yet, every style fails and the handle stays unset. */
  lemma NoKeyNoResults(catalog: seq<StyleProfile>, apiKey: Option<string>, prompt: string, baseImage: Option<File>,
                       ids: seq<string>, attempts: seq<Attempt>)
    requires |attempts| == |ids| && !KeyPresent(apiKey)
    ensures |Successes(Outcomes(catalog, None, apiKey, prompt, baseImage, ids, attempts))| == 0
    ensures ClientAfterBatch(catalog, None, apiKey, ids) == None
  {
    var outs := Outcomes(catalog, None, apiKey, prompt, baseImage, ids, attempts);
    forall i | 0 <= i < |ids| ensures outs[i].None? {
      BatchMeaning(catalog, None, apiKey, prompt, baseImage, ids, attempts, i);
      var style := Constants.FindById(catalog, ids[i]);
      if style.Some? {
        ServiceCallMeaning(None, apiKey, prompt, style.value.promptInstruction, baseImage, attempts[i].remote);
      }
    }
    SuccessesEmptyIff(outs);
  }

  /** The results of a batch follow the selection order. */
  lemma SuccessesFollowSelection(catalog: seq<StyleProfile>, handle: Option<Client>, apiKey: Option<string>, prompt: string,
                                 baseImage: Option<File>, ids: seq<string>, attempts: seq<Attempt>)
    requires |attempts| == |ids|
    ensures IsSubsequence(StyleIdsOf(Successes(Outcomes(catalog, handle, apiKey, prompt, baseImage, ids, attempts))), ids)
  {
    var outs := Outcomes(catalog, handle, apiKey, prompt, baseImage, ids, attempts);
    forall i | 0 <= i < |ids| ensures outs[i].Some? ==> outs[i].value.styleId == ids[i] {
      BatchMeaning(catalog, handle, apiKey, prompt, baseImage, ids, attempts, i);
    }
    TaggedSuccessesFollow(outs, ids);
  }

  lemma {:induction false} TaggedSuccessesFollow(outcomes: seq<Option<GenerationResult>>, ids: seq<string>)
    requires |outcomes| == |ids|
    requires forall i :: 0 <= i < |ids| && outcomes[i].Some? ==> outcomes[i].value.styleId == ids[i]
    ensures IsSubsequence(StyleIdsOf(Successes(outcomes)), ids)
    decreases |ids|
  {
    if |ids| > 0 {
      TaggedSuccessesFollow(outcomes[1..], ids[1..]);
      var rest := StyleIdsOf(Successes(outcomes[1..]));
      if outcomes[0].Some? {
        assert StyleIdsOf(Successes(outcomes)) == [ids[0]] + rest;
        assert ([ids[0]] + rest)[1..] == rest;
      } else {
        assert StyleIdsOf(Successes(outcomes)) == rest;
        IsSubsequenceCons(ids[0], rest, ids[1..]);
        assert [ids[0]] + ids[1..] == ids;
      }
    }
  }

  /** handleGenerate's guard: `!prompt.trim() || selectedStyles.length === 0`. */
  predicate BlocksGenerate(prompt: string, selected: seq<string>) {
    Text.IsBlank(prompt) || |selected| == 0
  }

  // ---------------------------------------------------------------------------
  // The component's state

  class AppState {
    var selectedStyles: seq<string>
    var prompt: string
    var baseImage: Option<File>
    var isGenerating: bool
    var results: seq<GenerationResult>
    var error: Option<string>
    var language: Language
    var theme: Theme
    /** The service module's shared state (its `aiClient` variable). */
    const service: ServiceState
    /** The catalog the cards are rendered from and handleGenerate looks ids up in. */
    const styles: seq<StyleProfile>
    /** The two tables of TRANSLATIONS. */
    const textsEn: Constants.UiStrings
    const textsZh: Constants.UiStrings

    /** `TRANSLATIONS[lang]`. */
    function Texts(lang: Language): Constants.UiStrings {
      if lang == En then textsEn else textsZh
    }

    /** The selection never lists an id twice. */
    ghost predicate Valid()
      reads this
    {
      NoDuplicates(selectedStyles)
    }

    constructor (service: ServiceState)
      ensures this.service == service && styles == Constants.STYLES
      ensures forall lang :: Texts(lang) == Constants.Translations(lang)
      ensures selectedStyles == [] && prompt == "" && baseImage.None? && !isGenerating
      ensures results == [] && error.None? && language == En && theme == Dark
      ensures Valid()
    {
      this.service := service;
      styles := Constants.STYLES;
      textsEn := Constants.EN_TRANSLATIONS;
      textsZh := Constants.ZH_TRANSLATIONS;
      selectedStyles := [];
      prompt := "";
      baseImage := None;
      isGenerating := false;
      results := [];
      error := None;
      language := En;
      theme := Dark;
    }

    /** toggleStyle. */
    method ToggleStyle(id: string)
      requires Valid()
      modifies this`selectedStyles
      ensures selectedStyles == Toggle(old(selectedStyles), id)
      ensures Valid()
    {
      ToggleKeepsNoDuplicates(selectedStyles, id);
      selectedStyles := Toggle(selectedStyles, id);
    }

    /** The prompt text area's `setPrompt`. */
    method SetPrompt(text: string)
      modifies this`prompt
      ensures prompt == text
    {
      prompt := text;
    }

    /** The language switch. */
    method ToggleLanguage()
      modifies this`language
      ensures language == NextLanguage(old(language))
    {
      language := NextLanguage(language);
    }

    /** The theme switch. */
    method ToggleTheme()
      modifies this`theme
      ensures theme == NextTheme(old(theme))
    {
      theme := NextTheme(theme);
    }

    /** The `selectedStyles.map` callback for one id: look the style up, call
        the service, and turn a success into a tagged result and any failure
        into null. */
    method GenerateOne(styleId: string, apiKey: Option<string>, a: Attempt)
      returns (outcome: Option<GenerationResult>, ghost request: Option<Request>)
      modifies service
      ensures Step(outcome, request, service.aiClient)
        == StyleOutcome(styles, old(service.aiClient), apiKey, prompt, baseImage, styleId, a)
    {
      var style := Constants.FindById(styles, styleId);
      if style.None? {
        return None, None;
      }
      var url, sent := service.GenerateStyledImage(prompt, style.value.promptInstruction, baseImage, apiKey, a.remote);
      request := sent;
      if url.Success? {
        outcome := Some(GenerationResult(a.resultId, style.value.id, url.value, prompt, a.timestamp));
      } else {
        outcome := None;
      }
    }

    /** `Promise.all(selectedStyles.map(...))`: every selected id's outcome,
        in selection order, with the service's handle threaded through. */
    method RunSelected(apiKey: Option<string>, attempts: seq<Attempt>)
      returns (outcomes: seq<Option<GenerationResult>>, ghost sent: seq<Option<Request>>)
      requires |attempts| == |selectedStyles|
      modifies service
      ensures outcomes == Outcomes(styles, old(service.aiClient), apiKey, prompt, baseImage, selectedStyles, attempts)
      ensures sent == Requests(styles, old(service.aiClient), apiKey, prompt, baseImage, selectedStyles, attempts)
      ensures service.aiClient == ClientAfterBatch(styles, old(service.aiClient), apiKey, selectedStyles)
    {
      outcomes, sent := [], [];
      var i := 0;
      while i < |selectedStyles|
        invariant 0 <= i <= |selectedStyles|
        invariant Batch(outcomes, sent, service.aiClient)
          == RunBatch(styles, old(service.aiClient), apiKey, prompt, baseImage, selectedStyles[..i], attempts[..i])
      {
        RunBatchExtend(styles, old(service.aiClient), apiKey, prompt, baseImage, selectedStyles, attempts, i);
        var outcome, request := GenerateOne(selectedStyles[i], apiKey, attempts[i]);
        outcomes := outcomes + [outcome];
        sent := sent + [request];
        i := i + 1;
      }
      assert selectedStyles[..i] == selectedStyles && attempts[..i] == attempts;
      SequentialIsIndependent(styles, old(service.aiClient), apiKey, prompt, baseImage, selectedStyles, attempts);
    }

    /** handleGenerate. `attempts[i]` is what the outside world gives the
        i-th selected id; `apiKey` is `process.env.API_KEY`. */
    method HandleGenerate(apiKey: Option<string>, attempts: seq<Attempt>)
      requires |attempts| == |selectedStyles|
      modifies this`isGenerating, this`error, this`results, service
      ensures BlocksGenerate(old(prompt), old(selectedStyles)) ==>
        isGenerating == old(isGenerating) && results == old(results) && error == old(error)
        && service.aiClient == old(service.aiClient)
      ensures !BlocksGenerate(old(prompt), old(selectedStyles)) ==>
        var ok := Successes(Outcomes(styles, old(service.aiClient), apiKey, prompt, baseImage, selectedStyles, attempts));
        && service.aiClient == ClientAfterBatch(styles, old(service.aiClient), apiKey, selectedStyles)
        && !isGenerating
        && (|ok| == 0 ==> error == Some(Texts(language).errorApiKey) && results == old(results))
        && (|ok| > 0 ==> error.None? && results == ok + old(results))
    {
      if BlocksGenerate(prompt, selectedStyles) {
        return;
      }
      Generate(apiKey, attempts);
    }

    /** handleGenerate past its early return: set the busy flag, clear the
        error, run the batch and settle it. */
    method Generate(apiKey: Option<string>, attempts: seq<Attempt>)
      requires |attempts| == |selectedStyles|
      modifies this`isGenerating, this`error, this`results, service
      ensures
        var ok := Successes(Outcomes(styles, old(service.aiClient), apiKey, prompt, baseImage, selectedStyles, attempts));
        && service.aiClient == ClientAfterBatch(styles, old(service.aiClient), apiKey, selectedStyles)
        && !isGenerating
        && (|ok| == 0 ==> error == Some(Texts(language).errorApiKey) && results == old(results))
        && (|ok| > 0 ==> error.None? && results == ok + old(results))
    {
      ghost var earlier := results;
      isGenerating := true;
      error := None;
      var newResults, sent := RunSelected(apiKey, attempts);
      assert results == earlier && error.None?;
      Settle(newResults);
    }

    /** The end of handleGenerate once `Promise.all` has settled: keep the
        successes, report the all-failed message or prepend them, and clear
        the busy flag. */
    method Settle(newResults: seq<Option<GenerationResult>>)
      requires error.None?
      modifies this`isGenerating, this`error, this`results
      ensures var ok := Successes(newResults);
        && !isGenerating
        && (|ok| == 0 ==> error == Some(Texts(language).errorApiKey) && results == old(results))
        && (|ok| > 0 ==> error.None? && results == ok + old(results))
    {
      var successfulResults := Successes(newResults);
      if |successfulResults| == 0 {
        error := Some(Texts(language).errorApiKey);
      } else {
        results := successfulResults + results;
      }
      isGenerating := false;
    }
  }
}
