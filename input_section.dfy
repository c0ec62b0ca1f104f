/** components/InputSection.tsx: how a reference image gets in (file picker,
    drag and drop, paste), the drag-highlight flag, and the pure rules that
    decide whether the generate button is enabled, what it says and which
    hint is shown beneath it.

    The component writes the image through its parent's `setBaseImage`; here
    InputState holds the parent AppState and writes its `baseImage` field,
    next to the component's own `dragActive` flag. */
module InputSection {
  import opened Types
  import Text
  import Constants
  import App

  // ---------------------------------------------------------------------------
  // What an accepted file is

  /** handleFile's filter: `file.type.startsWith('image/')`. */
  predicate IsImageType(mimeType: string) {
    Text.StartsWith(mimeType, "image/")
  }

  /** The image after handleFile(file). */
  function AcceptFile(current: Option<File>, file: File): (r: Option<File>)
    ensures r == Some(file) || r == current
    ensures IsImageType(file.mimeType) ==> r == Some(file)
    ensures r != current ==> IsImageType(file.mimeType)
  {
    if IsImageType(file.mimeType) then Some(file) else current
  }

  /** `files && files[0]`: the first file of a FileList that may be absent or empty. */
  function FirstFile(files: Option<seq<File>>): (r: Option<File>)
    ensures r.Some? <==> files.Some? && |files.value| > 0
    ensures r.Some? ==> r.value == files.value[0]
  {
    if files.Some? && |files.value| > 0 then Some(files.value[0]) else None
  }

  /** The image after a drop or a file-picker change carrying `files`. */
  function ImageFromFiles(current: Option<File>, files: Option<seq<File>>): Option<File> {
    match FirstFile(files)
    case None => current
    case Some(f) => AcceptFile(current, f)
  }

  /** Only the first file counts: whatever follows it, the outcome is that of
      handleFile on the first file, and a non-image first file keeps the old
      image even when later files are images. */
  lemma FirstFileOnly(current: Option<File>, first: File, rest: seq<File>)
    ensures ImageFromFiles(current, Some([first] + rest)) == AcceptFile(current, first)
    ensures !IsImageType(first.mimeType) ==> ImageFromFiles(current, Some([first] + rest)) == current
  {
  }

  /** An absent or empty file list changes nothing. */
  lemma NoFilesNoChange(current: Option<File>, files: Option<seq<File>>)
    requires files.None? || |files.value| == 0
    ensures ImageFromFiles(current, files) == current
  {
  }

  /** The picker and drop paths only ever install a file of an `image/` type. */
  predicate ImageOk(image: Option<File>) {
    image.None? || IsImageType(image.value.mimeType)
  }

  lemma ImageFromFilesKeepsImageOk(current: Option<File>, files: Option<seq<File>>)
    requires ImageOk(current)
    ensures ImageOk(ImageFromFiles(current, files))
  {
  }

  // ---------------------------------------------------------------------------
  // Paste

  /** One entry of `clipboardData.items`: its `type` and what `getAsFile()` returns. */
  datatype ClipboardItem = ClipboardItem(kind: string, blob: Option<File>)

  predicate IsImageItem(item: ClipboardItem) {
    Text.Contains(item.kind, "image")
  }

  /** The index of the first item whose type contains "image", if any. */
  function FirstImageItem(items: seq<ClipboardItem>): (r: Option<nat>)
    ensures r.Some? ==> r.value < |items| && IsImageItem(items[r.value])
    ensures r.Some? ==> forall j :: 0 <= j < r.value ==> !IsImageItem(items[j])
    ensures r.None? <==> forall j :: 0 <= j < |items| ==> !IsImageItem(items[j])
    decreases |items|
  {
    if |items| == 0 then None
    else if IsImageItem(items[0]) then Some(0)
    else
      var rest := FirstImageItem(items[1..]);
      assert forall j :: 1 <= j < |items| ==> items[j] == items[1..][j - 1];
      if rest.None? then None else Some(rest.value + 1)
  }

  /** The image after the paste handler sees `items` (None for a paste without
      clipboard data): the blob of the first image item, if it has one. */
  function PastedImage(current: Option<File>, items: Option<seq<ClipboardItem>>): Option<File> {
    if items.None? then current
    else match FirstImageItem(items.value)
      case None => current
      case Some(k) => if items.value[k].blob.Some? then items.value[k].blob else current
  }

  /** Paste takes the blob of the first image item and nothing after it; a
      first image item without a blob leaves the image as it was, whatever
      image items follow. */
  lemma PasteTakesFirstImage(current: Option<File>, before: seq<ClipboardItem>, item: ClipboardItem,
                             after: seq<ClipboardItem>)
    requires forall j :: 0 <= j < |before| ==> !IsImageItem(before[j])
    requires IsImageItem(item)
    ensures PastedImage(current, Some(before + [item] + after))
         == if item.blob.Some? then item.blob else current
  {
    var items := before + [item] + after;
    assert items[|before|] == item;
    assert forall j :: 0 <= j < |before| ==> items[j] == before[j];
  }

  /** Paste applies no MIME filter of its own: an item typed "image/png" whose
      blob is typed otherwise is installed, which the picker and drop paths
      would never do. */
  lemma PasteSkipsMimeFilter()
    ensures var f := File("notes.txt", "text/plain", Some("data:text/plain;base64,aGk="));
      var image := PastedImage(None, Some([ClipboardItem("image/png", Some(f))]));
      image == Some(f) && !ImageOk(image)
  {
    var items := [ClipboardItem("image/png", Some(File("notes.txt", "text/plain", Some("data:text/plain;base64,aGk="))))];
    assert Text.StartsWith(items[0].kind, "image");
    assert !Text.StartsWith("text/plain", "image/") by {
      assert "text/plain"[0] != "image/"[0];
    }
  }

  // ---------------------------------------------------------------------------
  // The drag-highlight flag

  /** handleDrag's update of `dragActive` for an event of type `eventType`. */
  function DragAfter(active: bool, eventType: string): bool {
    if eventType == "dragenter" || eventType == "dragover" then true
    else if eventType == "dragleave" then false
    else active
  }

  predicate IsDragEdge(eventType: string) {
    eventType == "dragenter" || eventType == "dragover" || eventType == "dragleave"
  }

  /** `events[k]` moves the flag and no later event does. */
  predicate IsLastEdge(events: seq<string>, k: int) {
    0 <= k < |events| && IsDragEdge(events[k]) && forall j :: k < j < |events| ==> !IsDragEdge(events[j])
  }

  /** The flag after a series of handleDrag events. */
  function DragAfterAll(active: bool, events: seq<string>): bool
    decreases |events|
  {
    if |events| == 0 then active else DragAfterAll(DragAfter(active, events[0]), events[1..])
  }

  /** After any series of drag events the flag tells whether the last event
      that moves it was an enter or an over; with no such event it is as before. */
  lemma {:induction false} DragFollowsLastEdge(active: bool, events: seq<string>)
    ensures (forall j :: 0 <= j < |events| ==> !IsDragEdge(events[j])) ==> DragAfterAll(active, events) == active
    ensures forall k :: IsLastEdge(events, k) ==> DragAfterAll(active, events) == (events[k] != "dragleave")
    decreases |events|
  {
    if |events| > 0 {
      var next := DragAfter(active, events[0]);
      DragFollowsLastEdge(next, events[1..]);
      assert forall j :: 1 <= j < |events| ==> events[j] == events[1..][j - 1];
      forall k | IsLastEdge(events, k)
        ensures DragAfterAll(active, events) == (events[k] != "dragleave")
      {
        if k > 0 {
          assert events[1..][k - 1] == events[k];
          assert forall j :: k - 1 < j < |events[1..]| ==> !IsDragEdge(events[1..][j]) by {
            forall j | k - 1 < j < |events[1..]| ensures !IsDragEdge(events[1..][j]) {
              assert events[1..][j] == events[j + 1];
            }
          }
        } else {
          assert forall j :: 0 <= j < |events[1..]| ==> !IsDragEdge(events[1..][j]) by {
            forall j | 0 <= j < |events[1..]| ensures !IsDragEdge(events[1..][j]) {
              assert events[1..][j] == events[j + 1];
            }
          }
        }
      }
    }
  }

  // ---------------------------------------------------------------------------
  // Button and hints

  /** `isGenerating || !prompt.trim() || selectedCount === 0`. */
  predicate GenerateDisabled(isGenerating: bool, prompt: string, selectedCount: nat) {
    isGenerating || Text.IsBlank(prompt) || selectedCount == 0
  }

  /** `!prompt.trim() && selectedCount > 0`. */
  predicate ShowNoPromptHint(prompt: string, selectedCount: nat) {
    Text.IsBlank(prompt) && selectedCount > 0
  }

  /** `selectedCount === 0`. */
  predicate ShowNoStyleHint(selectedCount: nat) {
    selectedCount == 0
  }

  /** The button is disabled exactly while a batch runs or while handleGenerate's
      own guard would return early; so a click on an enabled button always
      starts a batch. */
  lemma DisabledMatchesGuard(isGenerating: bool, prompt: string, selected: seq<string>)
    ensures GenerateDisabled(isGenerating, prompt, |selected|) <==> isGenerating || App.BlocksGenerate(prompt, selected)
    ensures GenerateDisabled(isGenerating, prompt, |selected|)
      <==> isGenerating || (forall i :: 0 <= i < |prompt| ==> Text.IsWhitespace(prompt[i])) || |selected| == 0
  {
    Text.BlankIffAllWhitespace(prompt);
  }

  /** At most one hint is shown; an idle disabled button always has exactly one
      hint saying why, and an enabled button has none. */
  lemma HintsExplainDisabled(isGenerating: bool, prompt: string, selectedCount: nat)
    ensures !(ShowNoPromptHint(prompt, selectedCount) && ShowNoStyleHint(selectedCount))
    ensures !isGenerating && GenerateDisabled(isGenerating, prompt, selectedCount) ==>
      ShowNoPromptHint(prompt, selectedCount) || ShowNoStyleHint(selectedCount)
    ensures !GenerateDisabled(isGenerating, prompt, selectedCount) ==>
      !ShowNoPromptHint(prompt, selectedCount) && !ShowNoStyleHint(selectedCount)
  {
  }

  /** `(${selectedCount})` when the count is positive, nothing otherwise. */
  function CountBadge(selectedCount: nat): (r: string)
    ensures selectedCount == 0 <==> r == ""
  {
    if selectedCount > 0 then "(" + Text.NatToString(selectedCount) + ")" else ""
  }

  /** The button's text: the `generating` text while busy, else the `generate`
      text, a space and the count badge. */
  function ButtonLabel(isGenerating: bool, selectedCount: nat, lang: Language): string {
    var t := Constants.Translations(lang);
    if isGenerating then t.generating else t.generate + " " + CountBadge(selectedCount)
  }

  /** The idle button text shows "(n)" exactly when n styles are selected, and the
      number between the parentheses reads back as the count. */
  lemma ButtonLabelShowsCount(selectedCount: nat, lang: Language)
    ensures var shown := ButtonLabel(false, selectedCount, lang);
      var lead := Constants.Translations(lang).generate + " ";
      && Text.StartsWith(shown, lead)
      && (selectedCount == 0 <==> shown == lead)
      && (selectedCount > 0 ==>
            && |shown| >= |lead| + 3
            && shown[|lead|] == '(' && shown[|shown| - 1] == ')'
            && Text.IsDigits(shown[|lead| + 1..|shown| - 1])
            && Text.ParseNat(shown[|lead| + 1..|shown| - 1]) == selectedCount)
  {
    var lead := Constants.Translations(lang).generate + " ";
    var shown := ButtonLabel(false, selectedCount, lang);
    assert shown == lead + CountBadge(selectedCount);
    assert shown[..|lead|] == lead;
    if selectedCount > 0 {
      var digits := Text.NatToString(selectedCount);
      assert shown == lead + "(" + digits + ")";
      assert shown[|lead|] == '(';
      assert shown[|lead| + 1..|shown| - 1] == digits;
      Text.ParseNatToString(selectedCount);
    }
  }

  /** While a batch runs the button shows the `generating` text, whatever the count. */
  lemma ButtonLabelWhileGenerating(selectedCount: nat, other: nat, lang: Language)
    ensures ButtonLabel(true, selectedCount, lang) == ButtonLabel(true, other, lang)
              == Constants.Translations(lang).generating
  {
  }

  // ---------------------------------------------------------------------------
  // The component's state

  class InputState {
    /** The parent whose `baseImage` state this component writes through
        setBaseImage, and whose batch sends that image. */
    const app: App.AppState
    var dragActive: bool

    constructor (app: App.AppState)
      ensures this.app == app && !dragActive
    {
      this.app := app;
      dragActive := false;
    }

    /** handleFile. */
    method HandleFile(file: File)
      modifies app`baseImage
      ensures app.baseImage == AcceptFile(old(app.baseImage), file)
    {
      if Text.StartsWith(file.mimeType, "image/") {
        app.baseImage := Some(file);
      }
    }

    /** handleChange: the picker's first file, if any, goes through handleFile. */
    method HandleChange(files: Option<seq<File>>)
      modifies app`baseImage
      ensures app.baseImage == ImageFromFiles(old(app.baseImage), files)
    {
      if files.Some? && |files.value| > 0 {
        HandleFile(files.value[0]);
      }
    }

    /** handleDrop: the highlight goes off, then the first dropped file, if any,
        goes through handleFile. */
    method HandleDrop(files: Option<seq<File>>)
      modifies this`dragActive, app`baseImage
      ensures !dragActive
      ensures app.baseImage == ImageFromFiles(old(app.baseImage), files)
    {
      dragActive := false;
      if files.Some? && |files.value| > 0 {
        HandleFile(files.value[0]);
      }
    }

    /** handleDrag for an event of type `eventType`. */
    method HandleDrag(eventType: string)
      modifies this`dragActive
      ensures dragActive == DragAfter(old(dragActive), eventType)
    {
      if eventType == "dragenter" || eventType == "dragover" {
        dragActive := true;
      } else if eventType == "dragleave" {
        dragActive := false;
      }
    }

    /** removeImage. */
    method RemoveImage()
      modifies app`baseImage
      ensures app.baseImage.None?
    {
      app.baseImage := None;
    }

    /** The window paste listener; `items` is `clipboardData?.items`.
        `prevented` tells whether the event's default was prevented. */
    method HandlePaste(items: Option<seq<ClipboardItem>>) returns (prevented: bool)
      modifies app`baseImage
      ensures app.baseImage == PastedImage(old(app.baseImage), items)
      ensures prevented <==> items.Some? && FirstImageItem(items.value).Some?
    {
      prevented := false;
      if items.None? {
        return;
      }
      var list := items.value;
      var i := 0;
      while i < |list|
        invariant 0 <= i <= |list|
        invariant forall j :: 0 <= j < i ==> !IsImageItem(list[j])
        invariant app.baseImage == old(app.baseImage) && !prevented
      {
        if Text.Contains(list[i].kind, "image") {
          prevented := true;
          var blob := list[i].blob;
          if blob.Some? {
            app.baseImage := blob;
          }
          break;
        }
        i := i + 1;
      }
    }
  }
}
