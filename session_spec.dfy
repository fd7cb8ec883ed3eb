/**
 * The session record of App.tsx (its ten `useState` variables) as a value, and
 * each handler of the component as a transition on it. The class `Session.App`
 * holds the same fields and its methods are proved to perform these transitions.
 */
module SessionSpec {
  import opened Wrappers
  import opened Types
  import opened JsStrings
  import opened GeminiService
  import opened PromptComposer

  const PromptMissingMessage := "Por favor, insira uma ideia."
  const ImageMissingMessage := "Por favor, envie uma imagem para editar."
  const UnknownErrorMessage := "Ocorreu um erro desconhecido."
  const LoadFailedMessage := "Falha ao carregar a imagem."

  /** The `imageSlot` argument of the upload handler; `null` is `None`. */
  datatype Slot = Slot1 | Slot2

  datatype SessionState = SessionState(
    mode: Mode,
    prompt: string,
    activeCreateFunc: CreateFunction,
    activeEditFunc: EditFunction,
    image1: Option<UploadedImage>,
    image2: Option<UploadedImage>,
    generatedImageUrl: Option<string>,
    isLoading: bool,
    error: Option<string>,
    showTwoImages: bool)

  /** The initial values given to `useState`. */
  const Initial := SessionState(Create, "", Free, AddRemove, None, None, None, false, None, false)

  /** JavaScript truthiness of a `string | null`: present and non-empty. */
  function Truthy(s: Option<string>): (r: bool)
    ensures r <==> s != None && s != Some("")
  {
    s.Some? && s.value != ""
  }

  /** The textarea's `onChange`: only the prompt changes. */
  function SetPrompt(s: SessionState, p: string): (r: SessionState)
    ensures r.prompt == p && r.(prompt := s.prompt) == s
  {
    s.(prompt := p)
  }

  /** A create-function card's `onClick`: only the active create function changes. */
  function SelectCreateFunction(s: SessionState, f: CreateFunction): (r: SessionState)
    ensures r.activeCreateFunc == f && r.(activeCreateFunc := s.activeCreateFunc) == s
  {
    s.(activeCreateFunc := f)
  }

  /** `handleModeChange`: a fresh start in the new mode. */
  function ModeChange(s: SessionState, m: Mode): (r: SessionState)
    ensures r.mode == m
    ensures r.generatedImageUrl.None? && r.error.None? && r.image1.None? && r.image2.None?
    ensures r.prompt == s.prompt && r.activeCreateFunc == s.activeCreateFunc
    ensures r.activeEditFunc == s.activeEditFunc && r.isLoading == s.isLoading
    ensures r.showTwoImages == s.showTwoImages
  {
    s.(mode := m, generatedImageUrl := None, error := None, image1 := None, image2 := None)
  }

  /** `handleEditFunctionClick`: the dual-image layout is on exactly for Compose. */
  function EditFunctionClick(s: SessionState, f: EditFunction): (r: SessionState)
    ensures r.activeEditFunc == f
    ensures r.showTwoImages <==> f == Compose
    ensures r.(activeEditFunc := s.activeEditFunc, showTwoImages := s.showTwoImages) == s
  {
    if f == Compose then s.(activeEditFunc := f, showTwoImages := true)
    else s.(activeEditFunc := f, showTwoImages := false)
  }

  /** The "back" button of the dual-image layout: leaves the layout, keeps the function. */
  function BackToEdit(s: SessionState): (r: SessionState)
    ensures !r.showTwoImages && r.(showTwoImages := s.showTwoImages) == s
  {
    s.(showTwoImages := false)
  }

  /** `handleImageUpload(e, slot)`, with the chosen file and how reading it ended. */
  function ImageUpload(s: SessionState, chosen: Option<File>, slot: Option<Slot>, read: ReadOutcome): (r: SessionState)
    ensures chosen.None? ==> r == s
    ensures chosen.Some? && read.ReadFailed? ==> r == s.(error := Some(LoadFailedMessage))
    ensures chosen.Some? && read.Loaded? ==>
      var img := UploadedImage(chosen.value, Payload(read.dataUrl), chosen.value.mediaType);
      if slot == Some(Slot2) then r == s.(image2 := Some(img)) else r == s.(image1 := Some(img))
  {
    match chosen
    case None => s
    case Some(file) =>
      match FileToBase64(file, read)
      case None => s.(error := Some(LoadFailedMessage))
      case Some(uploaded) =>
        if slot == Some(Slot1) then s.(image1 := Some(uploaded))
        else if slot == Some(Slot2) then s.(image2 := Some(uploaded))
        else s.(image1 := Some(uploaded))
  }

  /** The service call `generateImage` awaits, if it gets that far. */
  datatype ServiceCall =
    | NoCall
    | GenerateCall(prompt: string)
    | EditCall(prompt: string, image: UploadedImage)

  datatype Started = Started(state: SessionState, call: ServiceCall)

  /**
   * The part of `generateImage` before its `await`: clear result and error, set
   * loading, then validate; the validation failures reset loading and make no call.
   */
  function Begin(s: SessionState): (r: Started)
    ensures r.state.generatedImageUrl.None?
    ensures r.call.NoCall? <==> !r.state.isLoading
    ensures r.call.NoCall? <==> r.state.error.Some?
  {
    var cleared := s.(isLoading := true, error := None, generatedImageUrl := None);
    var finalPrompt := SystemPrompt(s.mode, s.activeCreateFunc, s.prompt);
    if s.mode == Create then
      if IsBlank(s.prompt) then Started(cleared.(error := Some(PromptMissingMessage), isLoading := false), NoCall)
      else Started(cleared, GenerateCall(finalPrompt))
    else
      match s.image1
      case None => Started(cleared.(error := Some(ImageMissingMessage), isLoading := false), NoCall)
      case Some(image) => Started(cleared, EditCall(s.prompt, image))
  }

  /** The resolved Create-mode case of `Begin`: the composed prompt is sent. */
  lemma BeginGenerates(s: SessionState)
    requires s.mode == Create && !IsBlank(s.prompt)
    ensures Begin(s) == Started(s.(isLoading := true, error := None, generatedImageUrl := None),
                                GenerateCall(SystemPrompt(Create, s.activeCreateFunc, s.prompt)))
  {
  }

  /** The blank-prompt case of `Begin`: the prompt message, loading off, no call. */
  lemma BeginRejectsBlank(s: SessionState)
    requires s.mode == Create && IsBlank(s.prompt)
    ensures Begin(s) == Started(s.(isLoading := false, error := Some(PromptMissingMessage), generatedImageUrl := None),
                                NoCall)
  {
  }

  /** The Edit-mode case of `Begin` with slot 1 filled: the raw prompt and slot 1 are sent. */
  lemma BeginEdits(s: SessionState)
    requires s.mode == Edit && s.image1.Some?
    ensures Begin(s) == Started(s.(isLoading := true, error := None, generatedImageUrl := None),
                                EditCall(s.prompt, s.image1.value))
  {
  }

  /** The empty-slot case of `Begin`: the image message, loading off, no call. */
  lemma BeginRejectsNoImage(s: SessionState)
    requires s.mode == Edit && s.image1.None?
    ensures Begin(s) == Started(s.(isLoading := false, error := Some(ImageMissingMessage), generatedImageUrl := None),
                                NoCall)
  {
  }

  /**
   * What `Begin` does: result and error cleared first; a blank Create prompt or an
   * empty slot 1 in Edit mode makes no call, shows its message and leaves loading
   * off; otherwise loading is on and the call is generate with the composed prompt
   * or edit with the raw prompt and slot 1; nothing else changes.
   */
  lemma BeginEffects(s: SessionState)
    ensures var r := Begin(s);
      && r.state == s.(isLoading := r.state.isLoading, error := r.state.error,
                       generatedImageUrl := r.state.generatedImageUrl)
      && r.state.generatedImageUrl.None?
      && (r.call.NoCall? <==> (s.mode == Create && IsBlank(s.prompt)) || (s.mode == Edit && s.image1.None?))
      && (r.call.NoCall? ==> !r.state.isLoading)
      && (s.mode == Create && IsBlank(s.prompt) ==> r.state.error == Some(PromptMissingMessage))
      && (s.mode == Edit && s.image1.None? ==> r.state.error == Some(ImageMissingMessage))
      && (!r.call.NoCall? ==> r.state.isLoading && r.state.error.None?)
      && (r.call.GenerateCall? ==>
            s.mode == Create && r.call.prompt == SystemPrompt(Create, s.activeCreateFunc, s.prompt))
      && (r.call.EditCall? ==> s.mode == Edit && r.call.prompt == s.prompt && s.image1 == Some(r.call.image))
  {
  }

  /**
   * The part of `generateImage` after its `await`: the URL on success, the error's
   * message (or the fallback) on failure, and loading off either way. A failure
   * carrying no message stands for a thrown value that is not an `Error`.
   */
  function Complete(s: SessionState, outcome: Result<string, Option<string>>): (r: SessionState)
    ensures !r.isLoading
    ensures outcome.Success? ==> r.generatedImageUrl == Some(outcome.value) && r.error == s.error
    ensures outcome.Failure? ==> r.generatedImageUrl == s.generatedImageUrl
    ensures outcome.Failure? && outcome.error.Some? ==> r.error == outcome.error
    ensures outcome.Failure? && outcome.error.None? ==> r.error == Some(UnknownErrorMessage)
    ensures r == s.(isLoading := false, error := r.error, generatedImageUrl := r.generatedImageUrl)
  {
    var settled := match outcome
      case Success(url) => s.(generatedImageUrl := Some(url))
      case Failure(message) => s.(error := Some(message.GetOr(UnknownErrorMessage)));
    settled.(isLoading := false)
  }

  /** A service failure as App.tsx receives it: an `Error` carrying the service's message. */
  function AsThrown(r: Result<string, string>): (t: Result<string, Option<string>>)
    ensures t.Success? <==> r.Success?
    ensures t.Success? ==> t.value == r.value
    ensures t.Failure? ==> t.error == Some(r.error)
  {
    match r
    case Success(url) => Success(url)
    case Failure(message) => Failure(Some(message))
  }

  /** What the service of services/geminiService.ts settles a call with. */
  function ServiceOutcome(call: ServiceCall, imagen: ImagesRequest -> Call<ImagesResponse>,
                          gemini: ContentRequest -> Call<ContentResponse>): (r: Result<string, Option<string>>)
    requires !call.NoCall?
    ensures r.Failure? ==> r.error.Some?
    ensures call.GenerateCall? ==>
      && (r.Success? <==> GenerateImage(call.prompt, imagen).Success?)
      && (r.Failure? ==> r.error == Some(GenerateFailedMessage))
    ensures call.EditCall? ==>
      && (r.Success? <==> EditImageResult(call.prompt, call.image, gemini).Success?)
      && (r.Failure? ==> r.error == Some(EditFailedMessage))
    ensures call.GenerateCall? && r.Success? ==> r.value == GenerateImage(call.prompt, imagen).value
    ensures call.EditCall? && r.Success? ==> r.value == EditImageResult(call.prompt, call.image, gemini).value
  {
    match call
    case GenerateCall(p) => AsThrown(GenerateImage(p, imagen))
    case EditCall(p, image) => AsThrown(EditImageResult(p, image, gemini))
  }

  /** The whole of `generateImage` when nothing else happens while the call is pending. */
  function Submit(s: SessionState, imagen: ImagesRequest -> Call<ImagesResponse>,
                  gemini: ContentRequest -> Call<ContentResponse>): (r: SessionState)
    ensures !r.isLoading
    ensures r == s.(isLoading := false, error := r.error, generatedImageUrl := r.generatedImageUrl)
  {
    var b := Begin(s);
    if b.call.NoCall? then b.state else Complete(b.state, ServiceOutcome(b.call, imagen, gemini))
  }

  /** `editCurrentImage`: without a result nothing happens; with one it is the switch to Edit. */
  function EditCurrentImage(s: SessionState): (r: SessionState)
    ensures !Truthy(s.generatedImageUrl) ==> r == s
    ensures Truthy(s.generatedImageUrl) ==> r == ModeChange(s, Edit)
  {
    if !Truthy(s.generatedImageUrl) then s else ModeChange(s, Edit)
  }

  /** The name `downloadImage` gives the file, for the time `Date.now()` returned. */
  function DownloadFileName(ms: nat): (r: string)
    ensures |r| > 13 && r[..9] == "ai-image-" && r[|r| - 4..] == ".jpg"
    ensures r[9] == '0' ==> ms == 0 && |r| == 14
    ensures forall i :: 9 <= i < |r| - 4 ==> IsDigit(r[i])
    ensures DecimalValue(r[9..|r| - 4]) == ms
  {
    var r := "ai-image-" + DecimalString(ms) + ".jpg";
    assert r[9..|r| - 4] == DecimalString(ms);
    DecimalRoundTrip(ms);
    r
  }

  datatype DownloadLink = DownloadLink(href: string, fileName: string)

  /** `downloadImage`: no link without a result, else the result under a timestamped name. */
  function Download(s: SessionState, ms: nat): (r: Option<DownloadLink>)
    ensures r.None? <==> !Truthy(s.generatedImageUrl)
    ensures r.Some? ==> r.value.href == s.generatedImageUrl.value && r.value.fileName == DownloadFileName(ms)
  {
    if !Truthy(s.generatedImageUrl) then None
    else Some(DownloadLink(s.generatedImageUrl.value, DownloadFileName(ms)))
  }

  // ---------------------------------------------------------------- properties

  /** Distinct timestamps give distinct download names. */
  lemma {:induction false} DownloadFileNameInjective(a: nat, b: nat)
    ensures DownloadFileName(a) == DownloadFileName(b) ==> a == b
  {
    var da, db := DecimalString(a), DecimalString(b);
    var na := DownloadFileName(a);
    if na == DownloadFileName(b) {
      assert |da| == |db|;
      assert da == na[9..9 + |da|];
      assert db == DownloadFileName(b)[9..9 + |db|];
      DecimalRoundTrip(a);
      DecimalRoundTrip(b);
    }
  }

  /**
   * In Create mode with a non-blank prompt, a successful round stores exactly the URI
   * `generateImage` returned for the composed prompt, and shows no error.
   */
  lemma SubmitGenerates(s: SessionState, imagen: ImagesRequest -> Call<ImagesResponse>,
                        gemini: ContentRequest -> Call<ContentResponse>)
    ensures var r := Submit(s, imagen, gemini);
      s.mode == Create && !IsBlank(s.prompt)
      && GenerateImage(SystemPrompt(Create, s.activeCreateFunc, s.prompt), imagen).Success? ==>
      && r.generatedImageUrl == Some(GenerateImage(SystemPrompt(Create, s.activeCreateFunc, s.prompt), imagen).value)
      && r.error == None
  {
    if s.mode == Create && !IsBlank(s.prompt) {
      BeginGenerates(s);
    }
  }

  /**
   * In Edit mode with slot 1 filled, a successful round stores exactly the URI
   * `editImage` returned for the raw prompt and slot 1, and shows no error.
   */
  lemma SubmitEdits(s: SessionState, imagen: ImagesRequest -> Call<ImagesResponse>,
                    gemini: ContentRequest -> Call<ContentResponse>)
    ensures var r := Submit(s, imagen, gemini);
      s.mode == Edit && s.image1.Some? && EditImageResult(s.prompt, s.image1.value, gemini).Success? ==>
      && r.generatedImageUrl == Some(EditImageResult(s.prompt, s.image1.value, gemini).value)
      && r.error == None
  {
    if s.mode == Edit && s.image1.Some? {
      BeginEdits(s);
    }
  }

  /** A data URI begins with the scheme "data:". */
  predicate IsDataUri(u: string) {
    |u| >= 5 && u[..5] == "data:"
  }

  /** The service settles with a data URI or with one of its two fixed messages. */
  lemma ServiceOutcomeShape(call: ServiceCall, imagen: ImagesRequest -> Call<ImagesResponse>,
                            gemini: ContentRequest -> Call<ContentResponse>)
    requires !call.NoCall?
    ensures var o := ServiceOutcome(call, imagen, gemini);
      && (o.Success? ==> IsDataUri(o.value))
      && (o.Failure? ==> o.error == Some(GenerateFailedMessage) || o.error == Some(EditFailedMessage))
  {
  }

  /**
   * One round of `generateImage` with no other event while the call is pending ends
   * with loading off and never shows a result and an error together; a failure can
   * only surface one of the four fixed messages, never the unknown-error fallback.
   */
  lemma SubmitSettles(s: SessionState, imagen: ImagesRequest -> Call<ImagesResponse>,
                      gemini: ContentRequest -> Call<ContentResponse>)
    ensures var r := Submit(s, imagen, gemini);
      && !r.isLoading
      && !(r.generatedImageUrl.Some? && r.error.Some?)
      && (r.error.Some? ==> r.error == Some(PromptMissingMessage) || r.error == Some(ImageMissingMessage)
                            || r.error == Some(GenerateFailedMessage) || r.error == Some(EditFailedMessage))
      && (r.generatedImageUrl.Some? ==> IsDataUri(r.generatedImageUrl.value))
  {
    var b := Begin(s);
    if !b.call.NoCall? {
      ServiceOutcomeShape(b.call, imagen, gemini);
    }
  }

  /** In Create mode a whitespace-only prompt makes no call and shows the prompt error. */
  lemma BlankPromptMakesNoCall(s: SessionState)
    requires s.mode == Create && forall i :: 0 <= i < |s.prompt| ==> IsWhitespace(s.prompt[i])
    ensures Begin(s).call == NoCall
    ensures Begin(s).state.error == Some(PromptMissingMessage)
    ensures !Begin(s).state.isLoading && Begin(s).state.generatedImageUrl.None?
  {
  }

  /**
   * The layout flag is not tied to the edit function in every state: the back
   * button leaves Compose active with the single-image layout.
   */
  lemma LayoutFlagNotInvariant()
    ensures var r := BackToEdit(EditFunctionClick(Initial, Compose));
      r.activeEditFunc == Compose && !r.showTwoImages
  {
  }

  /**
   * A result and an error can be shown together: in Edit mode with slot 1 filled, an
   * upload into either slot that fails while the edit call is pending leaves its error
   * in place, because success sets only the URL.
   */
  lemma ResultAndErrorCanCoexist(s: SessionState, f: File, slot: Option<Slot>, url: string)
    requires s.mode == Edit && s.image1.Some?
    ensures var begun := Begin(s);
      var r := Complete(ImageUpload(begun.state, Some(f), slot, ReadFailed), Success(url));
      && begun.call == EditCall(s.prompt, s.image1.value)
      && r.generatedImageUrl == Some(url) && r.error == Some(LoadFailedMessage)
      && r.image1 == s.image1
  {
  }
}
