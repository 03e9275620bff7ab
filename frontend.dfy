/**
 * The upload-and-caption form of the web front end (frontend/src/App.js):
 * six pieces of component state, the file-pick handler, the submit handler
 * split at the request into a start and a completion, and the conditions
 * the rendering uses. The fetch and the read of the response body enter
 * together as one Outcome value; the handler changes no state between them.
 */
module Frontend {
  import opened Options
  import opened Strings

  /** A file from the browser's picker; its bytes are not modelled. */
  datatype File = File(name: string, mimeType: string)

  /** What the browser hands back for a preview: an opaque token, numbered
      in the order the browser created them, that refers to the file. */
  datatype ObjectUrl = ObjectUrl(serial: nat, file: File)

  /** The component state, one field per state hook. */
  datatype UiState = UiState(
    selectedFile: Option<File>,
    previewUrl: Option<ObjectUrl>,
    caption: Option<string>,
    detectedColors: seq<string>,
    loading: bool,
    error: Option<string>)

  const Initial: UiState := UiState(None, None, None, [], false, None)

  const InvalidFileMessage: string := "Please select a valid image file (PNG, JPG, GIF)."
  const NoFileMessage: string := "Please select an image first."
  const GenericFailure: string := "Failed to get caption."
  const ErrorPrefix: string := "Error: "

  /** How a request ended. A body that is not JSON, on an error status, is
      Unparseable with the parser's message; a failure of the transport, or
      an ok response whose body cannot be read, is TransportError. */
  datatype ErrorBody = Parsed(detail: Option<string>) | Unparseable(message: string)
  datatype Outcome =
    | Success(caption: Option<string>, detectedColors: Option<seq<string>>)
    | HttpError(body: ErrorBody)
    | TransportError(message: string)

  /** JavaScript truthiness of an optional string. */
  predicate Truthy(s: Option<string>)
  {
    s.Some? && s.value != ""
  }

  // ---------------------------------------------------------------------
  // Transitions

  /** The first picked file; none when the list is missing or empty. */
  function ChosenFile(files: Option<seq<File>>): Option<File>
  {
    match files
    case None => None
    case Some(fs) => if |fs| == 0 then None else Some(fs[0])
  }

  predicate IsImage(f: File)
  {
    StartsWith(f.mimeType, "image/")
  }

  predicate PicksImage(files: Option<seq<File>>)
  {
    ChosenFile(files).Some? && IsImage(ChosenFile(files).value)
  }

  /** The state after the file input changes; `serial` numbers the object
      URL the browser would create. */
  function FileChanged(s: UiState, files: Option<seq<File>>, serial: nat): (t: UiState)
    ensures t.selectedFile.Some? <==> PicksImage(files)
    ensures t.error == None <==> PicksImage(files)
    ensures t.caption == None && t.detectedColors == [] && t.loading == s.loading
    ensures t.previewUrl.Some? ==> t.previewUrl.value.serial == serial
    ensures Consistent(t)
  {
    if PicksImage(files) then
      var f := ChosenFile(files).value;
      s.(selectedFile := Some(f), previewUrl := Some(ObjectUrl(serial, f)),
         caption := None, detectedColors := [], error := None)
    else
      s.(selectedFile := None, previewUrl := None,
         caption := None, detectedColors := [], error := Some(InvalidFileMessage))
  }

  /** The state when the submit handler reaches its request, and the file
      it sends (none: no request is made). */
  function SubmitStarted(s: UiState): (r: (UiState, Option<File>))
    ensures r.1 == s.selectedFile
    ensures r.0.loading == (s.loading || s.selectedFile.Some?)
    ensures r.0.error.Some? <==> s.selectedFile.None?
    ensures r.0.(loading := s.loading, error := s.error) == s
  {
    if s.selectedFile.None? then (s.(error := Some(NoFileMessage)), None)
    else (s.(loading := true, error := None), s.selectedFile)
  }

  /** The message of the error the failure path throws or catches. */
  function FailureMessage(outcome: Outcome): string
    requires !outcome.Success?
  {
    match outcome
    case HttpError(Parsed(detail)) => if Truthy(detail) then detail.value else GenericFailure
    case HttpError(Unparseable(message)) => message
    case TransportError(message) => message
  }

  /** The state once the request has ended. */
  function SubmitCompleted(s: UiState, outcome: Outcome): (t: UiState)
    ensures !t.loading
    ensures t.(caption := s.caption, detectedColors := s.detectedColors, loading := s.loading, error := s.error) == s
    ensures outcome.Success? ==> t.error == s.error
    ensures !outcome.Success? ==>
      t.caption == s.caption && t.detectedColors == s.detectedColors &&
      t.error.Some? && StartsWith(t.error.value, ErrorPrefix)
  {
    match outcome
    case Success(caption, colors) =>
      s.(caption := caption, detectedColors := if colors.Some? then colors.value else [], loading := false)
    case _ =>
      s.(error := Some(ErrorPrefix + FailureMessage(outcome)), loading := false)
  }

  // ---------------------------------------------------------------------
  // Rendering conditions

  /** In a consistent state the preview shows exactly when a file is
      selected, and it is that file's. */
  predicate PreviewShown(s: UiState)
    ensures Consistent(s) ==> (PreviewShown(s) <==> s.selectedFile.Some?)
    ensures Consistent(s) && PreviewShown(s) ==> s.previewUrl.value.file == s.selectedFile.value
  {
    s.previewUrl.Some?
  }

  /** In a consistent state the banner shows exactly when an error is set,
      because every message the form sets is non-empty. */
  predicate ErrorBannerShown(s: UiState)
    ensures Consistent(s) ==> (ErrorBannerShown(s) <==> s.error.Some?)
  {
    Truthy(s.error)
  }

  /** Disabled while a request is in flight; when enabled, a click sends a
      request and disables the button until the request ends. */
  predicate SubmitDisabled(s: UiState)
    ensures s.loading ==> SubmitDisabled(s)
    ensures !SubmitDisabled(s) ==> SubmitStarted(s).1.Some? && SubmitStarted(s).0.loading
  {
    s.selectedFile.None? || s.loading
  }

  /** The panel shows exactly when one of its two lines does. */
  predicate ResultPanelShown(s: UiState)
    ensures ResultPanelShown(s) <==> CaptionLineShown(s) || ColorsLine(s).Some?
  {
    Truthy(s.caption) || |s.detectedColors| > 0
  }

  /** Shown for a non-empty caption; an empty caption is kept in the state
      but not shown. */
  predicate CaptionLineShown(s: UiState)
    ensures CaptionLineShown(s) ==> s.caption.Some? && |s.caption.value| > 0
    ensures s.caption == Some("") ==> !CaptionLineShown(s)
  {
    Truthy(s.caption)
  }

  /** The text after the "Detected Colors:" label, when that line is shown:
      the colours in order, separated by ", ", so that reading it back at
      the separators gives the list again. */
  function ColorsLine(s: UiState): (line: Option<string>)
    ensures line.Some? <==> |s.detectedColors| > 0
    ensures line.Some? && CommaFree(s.detectedColors) ==> Unjoin(line.value) == s.detectedColors
  {
    if |s.detectedColors| == 0 then None
    else
      var line := Join(s.detectedColors, ListSeparator);
      assert CommaFree(s.detectedColors) ==> Unjoin(line) == s.detectedColors by {
        if CommaFree(s.detectedColors) {
          UnjoinJoin(s.detectedColors);
        }
      }
      Some(line)
  }

  // ---------------------------------------------------------------------
  // Properties of the transitions

  /** A valid image pick selects the file, previews it, clears the result
      and the error, and leaves `loading` alone. */
  lemma PickImage(s: UiState, files: Option<seq<File>>, serial: nat)
    requires PicksImage(files)
    ensures var t := FileChanged(s, files, serial);
      && t.selectedFile == ChosenFile(files)
      && t.previewUrl == Some(ObjectUrl(serial, ChosenFile(files).value))
      && t.caption == None && t.detectedColors == [] && t.error == None
      && t.loading == s.loading
  {
  }

  /** Any other pick clears the file, the preview and the result and sets
      the fixed message; `loading` is left alone. */
  lemma PickNonImage(s: UiState, files: Option<seq<File>>, serial: nat)
    requires !PicksImage(files)
    ensures var t := FileChanged(s, files, serial);
      && t.selectedFile == None && t.previewUrl == None
      && t.caption == None && t.detectedColors == []
      && t.error == Some("Please select a valid image file (PNG, JPG, GIF).")
      && t.loading == s.loading
      && !PreviewShown(t) && !ResultPanelShown(t) && SubmitDisabled(t)
  {
  }

  /** Picking the same image twice shows what picking it once shows; only
      the number of the preview URL differs. */
  lemma PickTwiceSameAsOnce(s: UiState, files: Option<seq<File>>, n: nat, m: nat)
    requires PicksImage(files)
    ensures var once := FileChanged(s, files, n);
      var twice := FileChanged(FileChanged(s, files, m), files, n);
      twice == once
  {
  }

  /** Submitting with no file makes no request, sets the fixed message and
      changes nothing else. */
  lemma SubmitWithoutFile(s: UiState)
    requires s.selectedFile.None?
    ensures SubmitStarted(s).1 == None
    ensures SubmitStarted(s).0 == s.(error := Some("Please select an image first."))
  {
  }

  /** Submitting with a file sends that file, turns `loading` on and clears
      the error before the request; the button is then disabled. */
  lemma SubmitWithFile(s: UiState)
    requires s.selectedFile.Some?
    ensures SubmitStarted(s).1 == s.selectedFile
    ensures SubmitStarted(s).0 == s.(loading := true, error := None)
    ensures SubmitDisabled(SubmitStarted(s).0)
  {
  }

  /** Whatever the outcome, `loading` is off afterwards, and the file and
      its preview are as they were. */
  lemma CompletionEndsLoading(s: UiState, outcome: Outcome)
    ensures var t := SubmitCompleted(s, outcome);
      !t.loading && t.selectedFile == s.selectedFile && t.previewUrl == s.previewUrl
  {
  }

  /** On success the caption and colours are taken from the reply (no
      colours: the empty list) and the error cleared at the start stays
      cleared. */
  lemma SuccessShowsReply(s: UiState, caption: Option<string>, colors: Option<seq<string>>)
    requires s.selectedFile.Some?
    ensures var t := SubmitCompleted(SubmitStarted(s).0, Success(caption, colors));
      && t.caption == caption
      && t.detectedColors == (if colors.Some? then colors.value else [])
      && t.error == None && !t.loading
      && (ResultPanelShown(t) <==> Truthy(caption) || (colors.Some? && |colors.value| > 0))
  {
  }

  /** A failure sets the error and keeps the previous caption and colours. */
  lemma FailureKeepsResult(s: UiState, outcome: Outcome)
    requires !outcome.Success?
    ensures var t := SubmitCompleted(s, outcome);
      && t.caption == s.caption && t.detectedColors == s.detectedColors
      && t.error == Some(ErrorPrefix + FailureMessage(outcome))
  {
  }

  /** The error text for each kind of failure: the server's detail when it
      has one, the generic text when a parsed body has none, and the
      thrown message otherwise, never replaced by the generic text. */
  lemma FailureMessages(s: UiState, detail: Option<string>, message: string)
    ensures SubmitCompleted(s, HttpError(Parsed(detail))).error ==
      Some(if Truthy(detail) then "Error: " + detail.value else "Error: Failed to get caption.")
    ensures SubmitCompleted(s, HttpError(Unparseable(message))).error == Some("Error: " + message)
    ensures SubmitCompleted(s, TransportError(message)).error == Some("Error: " + message)
  {
    assert ErrorPrefix + GenericFailure == "Error: Failed to get caption.";
  }

  // ---------------------------------------------------------------------
  // Invariants over any sequence of events

  /** What holds in every reachable state: the preview is of the selected
      file and exists exactly when a file is selected, the selected file is
      an image, and a set error is never empty text. */
  ghost predicate Consistent(s: UiState)
  {
    && (s.previewUrl.Some? <==> s.selectedFile.Some?)
    && (s.previewUrl.Some? ==> s.previewUrl.value.file == s.selectedFile.value)
    && (s.selectedFile.Some? ==> IsImage(s.selectedFile.value))
    && (s.error.Some? ==> s.error.value != "")
  }

  /** Every object URL in the state was created before the browser's count
      reached `created`. */
  ghost predicate UrlsBelow(s: UiState, created: nat)
  {
    s.previewUrl.Some? ==> s.previewUrl.value.serial < created
  }

  datatype Event =
    | FilesPicked(files: Option<seq<File>>)
    | SubmitClicked
    | RequestEnded(outcome: Outcome)

  /** One event: the new state and the browser's new count of object URLs. */
  function Step(s: UiState, created: nat, e: Event): (UiState, nat)
  {
    match e
    case FilesPicked(files) =>
      (FileChanged(s, files, created), if PicksImage(files) then created + 1 else created)
    case SubmitClicked => (SubmitStarted(s).0, created)
    case RequestEnded(outcome) => (SubmitCompleted(s, outcome), created)
  }

  /** The events handled one after another, as the browser dispatches them. */
  function Run(s: UiState, created: nat, events: seq<Event>): (UiState, nat)
    decreases |events|
  {
    if |events| == 0 then (s, created)
    else
      var next := Step(s, created, events[0]);
      Run(next.0, next.1, events[1..])
  }

  lemma StepKeepsInvariant(s: UiState, created: nat, e: Event)
    requires Consistent(s) && UrlsBelow(s, created)
    ensures var next := Step(s, created, e);
      Consistent(next.0) && UrlsBelow(next.0, next.1) && next.1 >= created
  {
  }

  /** Every state reachable from the initial one is Consistent. */
  lemma {:induction false} RunKeepsInvariant(s: UiState, created: nat, events: seq<Event>)
    requires Consistent(s) && UrlsBelow(s, created)
    ensures var final := Run(s, created, events);
      Consistent(final.0) && UrlsBelow(final.0, final.1) && final.1 >= created
    decreases |events|
  {
    if |events| > 0 {
      StepKeepsInvariant(s, created, events[0]);
      var next := Step(s, created, events[0]);
      RunKeepsInvariant(next.0, next.1, events[1..]);
    }
  }

  /** A new preview URL is never one already in the state. */
  lemma PreviewUrlIsFresh(s: UiState, files: Option<seq<File>>, created: nat)
    requires UrlsBelow(s, created) && PicksImage(files)
    ensures FileChanged(s, files, created).previewUrl != s.previewUrl
  {
  }

  // ---------------------------------------------------------------------
  // The component

  class App {
    var selectedFile: Option<File>
    var previewUrl: Option<ObjectUrl>
    var caption: Option<string>
    var detectedColors: seq<string>
    var loading: bool
    var error: Option<string>
    /** How many object URLs the browser has created for this page. */
    var urlsCreated: nat

    function State(): UiState
      reads this
    {
      UiState(selectedFile, previewUrl, caption, detectedColors, loading, error)
    }

    ghost predicate Valid()
      reads this
    {
      Consistent(State()) && UrlsBelow(State(), urlsCreated)
    }

    /** The initial render: every hook at its initial value. */
    constructor ()
      ensures Valid() && State() == Initial && urlsCreated == 0
    {
      selectedFile, previewUrl, caption := None, None, None;
      detectedColors, loading, error := [], false, None;
      urlsCreated := 0;
    }

    /** The browser creating an object URL for a file. */
    method CreateObjectUrl(f: File) returns (url: ObjectUrl)
      modifies this`urlsCreated
      ensures url == ObjectUrl(old(urlsCreated), f)
      ensures urlsCreated == old(urlsCreated) + 1
    {
      url := ObjectUrl(urlsCreated, f);
      urlsCreated := urlsCreated + 1;
    }

    /** The file input's change handler. */
    method HandleFileChange(files: Option<seq<File>>)
      requires Valid()
      modifies this
      ensures Valid()
      ensures State() == FileChanged(old(State()), files, old(urlsCreated))
      ensures urlsCreated == old(urlsCreated) + (if PicksImage(files) then 1 else 0)
    {
      var file := ChosenFile(files);
      if file.Some? && IsImage(file.value) {
        selectedFile := file;
        var url := CreateObjectUrl(file.value);
        previewUrl := Some(url);
        caption := None;
        detectedColors := [];
        error := None;
      } else {
        selectedFile := None;
        previewUrl := None;
        caption := None;
        detectedColors := [];
        error := Some(InvalidFileMessage);
      }
    }

    /** The submit handler up to its request: the file it sends, if any. */
    method HandleSubmitStart() returns (request: Option<File>)
      requires Valid()
      modifies this
      ensures Valid() && urlsCreated == old(urlsCreated)
      ensures (State(), request) == SubmitStarted(old(State()))
    {
      if selectedFile.None? {
        error := Some(NoFileMessage);
        return None;
      }
      loading := true;
      error := None;
      request := selectedFile;
    }

    /** The submit handler after its request has ended. */
    method HandleSubmitComplete(outcome: Outcome)
      requires Valid()
      modifies this
      ensures Valid() && urlsCreated == old(urlsCreated)
      ensures State() == SubmitCompleted(old(State()), outcome)
    {
      match outcome {
        case Success(c, colors) =>
          caption := c;
          detectedColors := if colors.Some? then colors.value else [];
        case _ =>
          error := Some(ErrorPrefix + FailureMessage(outcome));
      }
      loading := false;
    }
  }
}
