/**
 * The `App` component of App.tsx as an object: its ten state variables are
 * fields, each React setter a field assignment, and each handler a method
 * proved to perform the matching transition of `SessionSpec`.
 */
module Session {
  import opened Wrappers
  import opened Types
  import opened JsStrings
  import GeminiService
  import opened PromptComposer
  import opened SessionSpec

  class App {
    var mode: Mode
    var prompt: string
    var activeCreateFunc: CreateFunction
    var activeEditFunc: EditFunction
    var image1: Option<UploadedImage>
    var image2: Option<UploadedImage>
    var generatedImageUrl: Option<string>
    var isLoading: bool
    var error: Option<string>
    var showTwoImages: bool

    /** The current values of the ten fields, as one record. */
    function State(): SessionState
      reads this
    {
      SessionState(mode, prompt, activeCreateFunc, activeEditFunc, image1, image2,
                   generatedImageUrl, isLoading, error, showTwoImages)
    }

    constructor ()
      ensures State() == Initial
    {
      mode := Create;
      prompt := "";
      activeCreateFunc := Free;
      activeEditFunc := AddRemove;
      image1 := None;
      image2 := None;
      generatedImageUrl := None;
      isLoading := false;
      error := None;
      showTwoImages := false;
    }

    method SetPrompt(p: string)
      modifies this
      ensures State() == SessionSpec.SetPrompt(old(State()), p)
    {
      prompt := p;
    }

    method SelectCreateFunction(f: CreateFunction)
      modifies this
      ensures State() == SessionSpec.SelectCreateFunction(old(State()), f)
    {
      activeCreateFunc := f;
    }

    method HandleModeChange(newMode: Mode)
      modifies this
      ensures State() == ModeChange(old(State()), newMode)
    {
      mode := newMode;
      generatedImageUrl := None;
      error := None;
      image1 := None;
      image2 := None;
    }

    method HandleEditFunctionClick(f: EditFunction)
      modifies this
      ensures State() == EditFunctionClick(old(State()), f)
      ensures showTwoImages <==> activeEditFunc == Compose
    {
      activeEditFunc := f;
      if f == Compose {
        showTwoImages := true;
      } else {
        showTwoImages := false;
      }
    }

    /** The back button of the dual-image layout. */
    method BackToEdit()
      modifies this
      ensures State() == SessionSpec.BackToEdit(old(State()))
    {
      showTwoImages := false;
    }

    /** `handleImageUpload(e, imageSlot)`; `read` is how reading the chosen file ended. */
    method HandleImageUpload(chosen: Option<File>, imageSlot: Option<Slot>, read: GeminiService.ReadOutcome)
      modifies this
      ensures State() == ImageUpload(old(State()), chosen, imageSlot, read)
    {
      if chosen.Some? {
        var uploaded := GeminiService.FileToBase64(chosen.value, read);
        if uploaded.Some? {
          if imageSlot == Some(Slot1) {
            image1 := uploaded;
          } else if imageSlot == Some(Slot2) {
            image2 := uploaded;
          } else {
            image1 := uploaded;
          }
        } else {
          error := Some(LoadFailedMessage);
        }
      }
    }

    /**
     * `generateImage` up to its `await`. The button that triggers it is disabled
     * while loading, so it is never entered with `isLoading` set.
     */
    method BeginGenerateImage() returns (call: ServiceCall)
      requires !isLoading
      modifies this
      ensures State() == Begin(old(State())).state && call == Begin(old(State())).call
    {
      ghost var s0 := State();
      isLoading := true;
      error := None;
      generatedImageUrl := None;
      var finalPrompt := SystemPrompt(mode, activeCreateFunc, prompt);  // getSystemPrompt()
      if mode == Create {
        if IsBlank(prompt) {
          error := Some(PromptMissingMessage);
          isLoading := false;
          BeginRejectsBlank(s0);
          return NoCall;
        }
        call := GenerateCall(finalPrompt);
        BeginGenerates(s0);
      } else {
        if image1.None? {
          error := Some(ImageMissingMessage);
          isLoading := false;
          BeginRejectsNoImage(s0);
          return NoCall;
        }
        call := EditCall(prompt, image1.value);
        BeginEdits(s0);
      }
    }

    /** `generateImage` after its `await`: the `try`, `catch` and `finally` tails. */
    method CompleteGenerateImage(outcome: Result<string, Option<string>>)
      modifies this
      ensures State() == Complete(old(State()), outcome)
    {
      match outcome {
        case Success(url) =>
          generatedImageUrl := Some(url);
        case Failure(message) =>
          error := Some(if message.Some? then message.value else UnknownErrorMessage);
      }
      isLoading := false;
    }

    /** A whole `generateImage`, against the service of services/geminiService.ts. */
    method GenerateImage(imagen: GeminiService.ImagesRequest -> GeminiService.Call<GeminiService.ImagesResponse>,
                         gemini: GeminiService.ContentRequest -> GeminiService.Call<GeminiService.ContentResponse>)
      returns (call: ServiceCall)
      requires !isLoading
      modifies this
      ensures call == Begin(old(State())).call
      ensures State() == Submit(old(State()), imagen, gemini)
    {
      call := BeginGenerateImage();
      match call {
        case NoCall =>
        case GenerateCall(p) =>
          var r := GeminiService.GenerateImage(p, imagen);
          CompleteGenerateImage(AsThrown(r));
        case EditCall(p, image) =>
          var r := GeminiService.EditImage(p, image, gemini);
          CompleteGenerateImage(AsThrown(r));
      }
    }

    method EditCurrentImage()
      modifies this
      ensures State() == SessionSpec.EditCurrentImage(old(State()))
    {
      if !Truthy(generatedImageUrl) {
        return;
      }
      HandleModeChange(Edit);
    }

    /** `downloadImage`, with `now` the value of `Date.now()`; nothing in the state changes. */
    method DownloadImage(now: nat) returns (link: Option<DownloadLink>)
      ensures link == Download(State(), now)
    {
      if !Truthy(generatedImageUrl) {
        return None;
      }
      link := Some(DownloadLink(generatedImageUrl.value, DownloadFileName(now)));
    }
  }
}
