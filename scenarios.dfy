/** End-to-end sessions against chosen service responses, stated and proved. */
module Scenarios {
  import opened Wrappers
  import opened Types
  import opened JsStrings
  import opened GeminiService
  import opened PromptComposer
  import opened SessionSpec
  import opened Session

  /** A prompt that starts with a visible character is not blank. */
  lemma NotBlank(p: string)
    requires p != [] && !IsWhitespace(p[0])
    ensures !IsBlank(p)
  {
  }

  /**
   * Create mode, Sticker, prompt "a red fox", and a service that returns one image:
   * the sticker template wraps the prompt and the result is the JPEG data URI.
   */
  method StickerRequestSucceeds(bytes: string) returns (sent: ServiceCall, url: Option<string>, err: Option<string>)
    ensures sent == GenerateCall(StickerPrefix + "a red fox")
    ensures url == Some("data:image/jpeg;base64," + bytes) && err == None
  {
    var app := new App();
    app.SetPrompt("a red fox");
    app.SelectCreateFunction(Sticker);
    assert app.State() == Initial.(prompt := "a red fox", activeCreateFunc := Sticker);
    NotBlank("a red fox");
    sent := app.BeginGenerateImage();
    assert sent == GenerateCall(StickerPrefix + "a red fox");
    var imagen := (req: ImagesRequest) => Resolved(ImagesResponse(Some([GeneratedImage(Some(Image(Some(bytes))))])));
    var r := GeminiService.GenerateImage(sent.prompt, imagen);
    OneImageAnswer(sent.prompt, imagen, bytes);
    app.CompleteGenerateImage(AsThrown(r));
    url, err := app.generatedImageUrl, app.error;
  }

  lemma OneImageAnswer(p: string, imagen: ImagesRequest -> Call<ImagesResponse>, bytes: string)
    requires imagen(GenerateRequest(p)) == Resolved(ImagesResponse(Some([GeneratedImage(Some(Image(Some(bytes))))])))
    ensures GenerateImage(p, imagen) == Success("data:image/jpeg;base64," + bytes)
  {
  }

  lemma TextOnlyAnswerFails(p: string, image: UploadedImage, gemini: ContentRequest -> Call<ContentResponse>)
    requires gemini(EditRequest(p, image)) == Resolved(ContentResponse(Some([Candidate(Some(Content(Some([Part(None, Some("no"))]))))])))
    ensures EditImageResult(p, image, gemini) == Failure(EditFailedMessage)
  {
  }

  /**
   * Edit mode, AddRemove, slot 1 filled from an image file, prompt "remove the hat", and a
   * service whose answer has no inline-image part: the request carries slot 1's
   * payload before the raw prompt, and the failure surfaces as the fixed edit message.
   */
  method EditWithoutImagePartFails(png: File, payload: string)
    returns (request: ContentRequest, url: Option<string>, err: Option<string>, loading: bool)
    requires ',' !in png.mediaType && ',' !in payload
    ensures request.parts == [InlinePart(Some(payload), png.mediaType), TextPart("remove the hat")]
    ensures url == None && err == Some("Failed to edit image.") && !loading
  {
    var app := new App();
    app.HandleModeChange(Edit);
    assert app.State() == Initial.(mode := Edit);
    app.HandleEditFunctionClick(AddRemove);
    assert app.State() == Initial.(mode := Edit);
    var dataUrl := "data:" + png.mediaType + ";base64," + payload;
    ghost var image := UploadedImage(png, Some(payload), png.mediaType);
    InlinePayloadRoundTrip(png.mediaType, payload);
    app.HandleImageUpload(Some(png), None, Loaded(dataUrl));
    assert app.State() == Initial.(mode := Edit, image1 := Some(image));
    app.SetPrompt("remove the hat");
    assert app.State() == Initial.(mode := Edit, prompt := "remove the hat", image1 := Some(image));
    var sent := app.BeginGenerateImage();
    assert sent == EditCall("remove the hat", image);
    request := EditRequest(sent.prompt, sent.image);
    var textOnly := (req: ContentRequest) => Resolved(ContentResponse(Some([Candidate(Some(Content(Some([Part(None, Some("no"))]))))])));
    var r := GeminiService.EditImage(sent.prompt, sent.image, textOnly);
    TextOnlyAnswerFails(sent.prompt, sent.image, textOnly);
    app.CompleteGenerateImage(AsThrown(r));
    url, err, loading := app.generatedImageUrl, app.error, app.isLoading;
  }

  /**
   * An upload to slot 1 whose read fails: the load error is shown, and both slots
   * and the result stay as they were.
   */
  method FailedUploadKeepsImages() returns (img1: Option<UploadedImage>, img2: Option<UploadedImage>,
                                            url: Option<string>, err: Option<string>)
    ensures img1 == None && img2 == None && url == None
    ensures err == Some("Falha ao carregar a imagem.")
  {
    var app := new App();
    app.HandleImageUpload(Some(File("broken.png", "image/png")), Some(Slot1), ReadFailed);
    img1, img2, url, err := app.image1, app.image2, app.generatedImageUrl, app.error;
  }

  /**
   * "Edit this image" after a result switches to Edit mode with empty slots: the
   * result is dropped, not carried into slot 1.
   */
  method EditCurrentImageDropsResult(p: string, bytes: string) returns (m: Mode, img1: Option<UploadedImage>, url: Option<string>)
    requires !IsBlank(p)
    ensures m == Edit && img1 == None && url == None
  {
    var app := new App();
    app.SetPrompt(p);
    var imagen := (req: ImagesRequest) => Resolved(ImagesResponse(Some([GeneratedImage(Some(Image(Some(bytes))))])));
    var gemini := (req: ContentRequest) => Rejected("");
    assert app.State() == Initial.(prompt := p);
    OneImageSubmit(p, imagen, gemini, bytes);
    var _ := app.GenerateImage(imagen, gemini);
    ghost var uri := JpegDataUri(bytes);
    assert app.State() == Initial.(prompt := p, generatedImageUrl := Some(uri));
    ghost var s1 := app.State();
    assert |uri| == 23 + |bytes|;
    assert Truthy(s1.generatedImageUrl);
    app.EditCurrentImage();
    assert app.State() == ModeChange(s1, Edit);
    m, img1, url := app.mode, app.image1, app.generatedImageUrl;
  }

  /** A fresh session with a non-blank prompt and a one-image answer ends holding that image's URI. */
  lemma OneImageSubmit(p: string, imagen: ImagesRequest -> Call<ImagesResponse>,
                       gemini: ContentRequest -> Call<ContentResponse>, bytes: string)
    requires !IsBlank(p)
    requires imagen(GenerateRequest(p)) == Resolved(ImagesResponse(Some([GeneratedImage(Some(Image(Some(bytes))))])))
    ensures Submit(Initial.(prompt := p), imagen, gemini) == Initial.(prompt := p, generatedImageUrl := Some(JpegDataUri(bytes)))
  {
    var s0 := Initial.(prompt := p);
    assert Begin(s0) == Started(s0.(isLoading := true), GenerateCall(p));
    OneImageAnswer(p, imagen, bytes);
  }
}
