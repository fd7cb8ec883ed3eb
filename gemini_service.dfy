/**
 * services/geminiService.ts: the image encoder (`fileToBase64`) and the
 * generation client (`generateImage`, `editImage`). The hosted model is an
 * opaque collaborator: each SDK call is a total function parameter from the
 * request this client builds to the outcome the SDK's promise settles with.
 */
module GeminiService {
  import opened Wrappers
  import opened Types
  import opened JsStrings

  // ---------------------------------------------------------------- encoder

  /** How `FileReader.readAsDataURL` ends: `onload` with its data URL, or `onerror`. */
  datatype ReadOutcome = Loaded(dataUrl: string) | ReadFailed

  /** `result.split(',')[1]`: the data-URL payload, `None` standing for `undefined`. */
  function Payload(dataUrl: string): (r: Option<string>)
    ensures r.Some? <==> ',' in dataUrl
    ensures r.Some? ==> ',' !in r.value
    ensures r.Some? ==>
      var i := IndexOf(dataUrl, ',').value;
      var tail := dataUrl[i + 1..];
      |r.value| <= |tail| && r.value == tail[..|r.value|]
      && (|r.value| == |tail| || tail[|r.value|] == ',')
  {
    var r := SplitAt(dataUrl, ',', 1);
    match IndexOf(dataUrl, ',')
    case None => r
    case Some(i) =>
      var tail := dataUrl[i + 1..];
      assert Split(dataUrl, ',') == [dataUrl[..i]] + Split(tail, ',');
      JoinSplit(tail, ',');
      var pieces := Split(tail, ',');
      assert r == Some(pieces[0]);
      assert tail == pieces[0] || tail == pieces[0] + [','] + Join(pieces[1..], ',');
      r
  }

  /** `fileToBase64`: the encoded image, or `None` when the promise rejects. */
  function FileToBase64(file: File, read: ReadOutcome): (r: Option<UploadedImage>)
    ensures r.None? <==> read.ReadFailed?
    ensures r.Some? ==> r.value.file == file && r.value.mimeType == file.mediaType
    ensures r.Some? ==> r.value.base64 == Payload(read.dataUrl)
  {
    match read
    case ReadFailed => None
    case Loaded(url) => Some(UploadedImage(file, Payload(url), file.mediaType))
  }

  /** A data URL `header,payload` whose payload has no comma yields that payload. */
  lemma {:induction false} PayloadOfHeaderAndPayload(header: string, payload: string)
    requires ',' !in header && ',' !in payload
    ensures Payload(header + "," + payload) == Some(payload)
  {
    SplitAtFirst(header, payload, ',');
    SplitNoSeparator(payload, ',');
  }

  // ---------------------------------------------------------------- data URIs

  /**
   * The data URI `editImage` returns for an inline part: the scheme, the media type,
   * the base64 marker, and the data last; with a comma-free media type the first
   * comma is the one that ends the header.
   */
  function InlineDataUri(mimeType: string, data: string): (r: string)
    ensures |r| == |mimeType| + |data| + 13
    ensures r[..5] == "data:" && r[5..5 + |mimeType|] == mimeType && r[|r| - |data|..] == data
    ensures r[5 + |mimeType|..|mimeType| + 13] == ";base64,"
    ensures ',' !in mimeType ==> IndexOf(r, ',') == Some(|mimeType| + 12)
  {
    var head := "data:" + mimeType;
    var header := head + ";base64,";
    var r := header + data;
    assert r[..|header|] == header && r[|header|..] == data;
    assert header[..|head|] == head && header[|head|..] == ";base64,";
    assert head[..5] == "data:" && head[5..] == mimeType;
    if ',' in mimeType then r
    else
      assert r == (head + ";base64") + [','] + data;
      IndexOfAfter(head + ";base64", ',', data);
      r
  }

  /** The data URI `generateImage` returns for JPEG bytes: the inline URI for "image/jpeg". */
  function JpegDataUri(imageBytes: string): (r: string)
    ensures r == InlineDataUri("image/jpeg", imageBytes)
  {
    "data:image/jpeg;base64," + imageBytes
  }

  /** Round trip: the encoder's payload split recovers the bytes of a JPEG URI. */
  lemma JpegPayloadRoundTrip(imageBytes: string)
    requires ',' !in imageBytes
    ensures Payload(JpegDataUri(imageBytes)) == Some(imageBytes)
  {
    assert JpegDataUri(imageBytes) == "data:image/jpeg;base64" + "," + imageBytes;
    PayloadOfHeaderAndPayload("data:image/jpeg;base64", imageBytes);
  }

  /** Round trip: the payload split recovers the data of an inline URI. */
  lemma InlinePayloadRoundTrip(mimeType: string, data: string)
    requires ',' !in mimeType && ',' !in data
    ensures Payload(InlineDataUri(mimeType, data)) == Some(data)
  {
    var header := "data:" + mimeType + ";base64";
    assert InlineDataUri(mimeType, data) == header + "," + data;
    PayloadOfHeaderAndPayload(header, data);
  }

  // ---------------------------------------------------------------- requests

  const ImagenModel := "imagen-4.0-generate-001"
  const EditModel := "gemini-2.5-flash-image-preview"

  datatype ImagesConfig = ImagesConfig(numberOfImages: nat, outputMimeType: string, aspectRatio: string)
  datatype ImagesRequest = ImagesRequest(model: string, prompt: string, config: ImagesConfig)

  datatype Modality = ImageModality | TextModality

  /** A part of an edit request; the inline data is `undefined` when the payload is. */
  datatype RequestPart = InlinePart(data: Option<string>, mimeType: string) | TextPart(text: string)
  datatype ContentRequest = ContentRequest(model: string, parts: seq<RequestPart>, responseModalities: seq<Modality>)

  /** The request `generateImage` sends. */
  function GenerateRequest(prompt: string): (r: ImagesRequest)
    ensures r.model == ImagenModel && r.prompt == prompt
    ensures r.config.numberOfImages == 1 && r.config.outputMimeType == "image/jpeg"
    ensures r.config.aspectRatio == "1:1"
  {
    ImagesRequest(ImagenModel, prompt, ImagesConfig(1, "image/jpeg", "1:1"))
  }

  /** The request `editImage` sends: the image first, then the instruction text. */
  function EditRequest(prompt: string, image: UploadedImage): (r: ContentRequest)
    ensures r.model == EditModel && |r.parts| == 2
    ensures r.parts[0] == InlinePart(image.base64, image.mimeType)
    ensures r.parts[1] == TextPart(prompt)
    ensures r.responseModalities == [ImageModality, TextModality]
  {
    ContentRequest(EditModel, [InlinePart(image.base64, image.mimeType), TextPart(prompt)],
                   [ImageModality, TextModality])
  }

  // ---------------------------------------------------------------- responses

  /** How an SDK promise settles. */
  datatype Call<T> = Resolved(response: T) | Rejected(cause: string)

  // Every field the SDK types as optional is an `Option`, `None` standing for `undefined`.
  datatype Image = Image(imageBytes: Option<string>)
  datatype GeneratedImage = GeneratedImage(image: Option<Image>)
  datatype ImagesResponse = ImagesResponse(generatedImages: Option<seq<GeneratedImage>>)

  datatype Blob = Blob(data: Option<string>, mimeType: Option<string>)
  datatype Part = Part(inlineData: Option<Blob>, text: Option<string>)
  datatype Content = Content(parts: Option<seq<Part>>)
  datatype Candidate = Candidate(content: Option<Content>)
  datatype ContentResponse = ContentResponse(candidates: Option<seq<Candidate>>)

  /**
   * `response.candidates[0].content.parts`, or `None` where evaluating it, or iterating
   * over it with `for…of`, throws a `TypeError`.
   */
  function FirstCandidateParts(response: ContentResponse): (r: Option<seq<Part>>)
    ensures r.Some? <==>
      && response.candidates.Some? && |response.candidates.value| > 0
      && response.candidates.value[0].content.Some?
      && response.candidates.value[0].content.value.parts.Some?
    ensures r.Some? ==> r == response.candidates.value[0].content.value.parts
  {
    match response.candidates
    case None => None
    case Some(cs) =>
      if cs == [] then None
      else match cs[0].content
        case None => None
        case Some(content) => content.parts
  }

  /** What can be thrown inside the `try` blocks of the two operations. */
  datatype Thrown =
    | SdkError(cause: string)   // the SDK's promise rejected
    | NoImageGenerated          // Error("No image generated.")
    | NoImageReturned           // Error("No image was returned from the edit operation.")
    | TypeError                 // reading a property of `undefined`: an absent image, candidate, content or parts

  const GenerateFailedMessage := "Failed to generate image."
  const EditFailedMessage := "Failed to edit image."

  /** A `catch` that logs and rethrows a fixed message: every failure becomes `message`. */
  function CatchAndReplace<T>(attempt: Result<T, Thrown>, message: string): (r: Result<T, string>)
    ensures r.Success? <==> attempt.Success?
    ensures r.Success? ==> r.value == attempt.value
    ensures r.Failure? ==> r.error == message
  {
    match attempt
    case Success(v) => Success(v)
    case Failure(_) => Failure(message)
  }

  /** True when the response carries at least one generated image. */
  predicate HasImages(response: ImagesResponse) {
    response.generatedImages.Some? && |response.generatedImages.value| > 0
  }

  /** The first generated image of a response with images. */
  function FirstGenerated(response: ImagesResponse): GeneratedImage
    requires HasImages(response)
  {
    response.generatedImages.value[0]
  }

  /**
   * The body of `generateImage`'s `try` block: a rejection propagates, an absent or
   * empty image list throws "No image generated.", an absent `image` throws a
   * `TypeError`, and otherwise the JPEG URI of the first image's bytes is returned.
   */
  function TryGenerate(call: Call<ImagesResponse>): (r: Result<string, Thrown>)
    ensures call.Rejected? ==> r == Failure(SdkError(call.cause))
    ensures call.Resolved? && !HasImages(call.response) ==> r == Failure(NoImageGenerated)
    ensures (call.Resolved? && HasImages(call.response) && FirstGenerated(call.response).image.None?)
              ==> r == Failure(TypeError)
    ensures r.Success? <==>
              call.Resolved? && HasImages(call.response) && FirstGenerated(call.response).image.Some?
    ensures r.Success? ==>
              r.value == JpegDataUri(TemplateValue(FirstGenerated(call.response).image.value.imageBytes))
  {
    match call
    case Rejected(cause) => Failure(SdkError(cause))
    case Resolved(response) =>
      if !HasImages(response) then Failure(NoImageGenerated)
      else match FirstGenerated(response).image
        case None => Failure(TypeError)
        case Some(image) => Success(JpegDataUri(TemplateValue(image.imageBytes)))
  }

  /**
   * `generateImage(prompt)`: succeeds exactly when the service returns a non-empty
   * image list whose first entry has an image, with the JPEG URI of its bytes
   * (`undefined` rendered as "undefined"); every failure, including the inner
   * "No image generated.", surfaces as "Failed to generate image.".
   */
  function GenerateImage(prompt: string, imagen: ImagesRequest -> Call<ImagesResponse>): (r: Result<string, string>)
    ensures var call := imagen(GenerateRequest(prompt));
      && (r.Success? <==> call.Resolved? && HasImages(call.response) && FirstGenerated(call.response).image.Some?)
      && (r.Success? ==>
            r.value == JpegDataUri(TemplateValue(FirstGenerated(call.response).image.value.imageBytes)))
      && (r.Failure? ==> r.error == GenerateFailedMessage)
  {
    CatchAndReplace(TryGenerate(imagen(GenerateRequest(prompt))), GenerateFailedMessage)
  }

  /** The position of the first part carrying inline data: the reference for the scan. */
  function FirstImageIndex(parts: seq<Part>): (r: Option<nat>)
    ensures r.Some? ==> r.value < |parts| && parts[r.value].inlineData.Some?
    ensures r.Some? ==> forall j :: 0 <= j < r.value ==> parts[j].inlineData.None?
    ensures r.None? ==> forall j :: 0 <= j < |parts| ==> parts[j].inlineData.None?
  {
    if parts == [] then None
    else if parts[0].inlineData.Some? then Some(0)
    else match FirstImageIndex(parts[1..])
      case None => None
      case Some(k) => Some(k + 1)
  }

  /**
   * The URI an inline part yields: with both fields present, the inline URI of their
   * values; an absent field is rendered as "undefined" and does not make it fail.
   */
  function BlobUri(blob: Blob): (r: string)
    ensures blob.mimeType.Some? && blob.data.Some? ==> r == InlineDataUri(blob.mimeType.value, blob.data.value)
    ensures blob.mimeType.None? ==> |r| >= 14 && r[5..14] == "undefined"
    ensures blob.data.None? ==> |r| >= 9 && r[|r| - 9..] == "undefined"
    ensures blob.mimeType.None? ==> r == InlineDataUri("undefined", TemplateValue(blob.data))
    ensures blob.data.None? ==> r == InlineDataUri(TemplateValue(blob.mimeType), "undefined")
  {
    InlineDataUri(TemplateValue(blob.mimeType), TemplateValue(blob.data))
  }

  /**
   * The URI of the first part with inline data: `None` exactly when no part has any,
   * and otherwise the URI of a part with inline data that no earlier part has.
   */
  function FirstImageUri(parts: seq<Part>): (r: Option<string>)
    ensures r.None? <==> forall j :: 0 <= j < |parts| ==> parts[j].inlineData.None?
    ensures r.Some? ==>
      exists k :: && 0 <= k < |parts| && parts[k].inlineData.Some?
                  && r.value == BlobUri(parts[k].inlineData.value)
                  && (forall j :: 0 <= j < k ==> parts[j].inlineData.None?)
  {
    match FirstImageIndex(parts)
    case None => None
    case Some(k) => Some(BlobUri(parts[k].inlineData.value))
  }

  /**
   * The body of `editImage`'s `try` block, as a function: a rejection propagates, an
   * unreadable part list throws a `TypeError`, a list without inline data throws
   * "No image was returned from the edit operation.", and otherwise the URI of the
   * first inline part is returned.
   */
  function TryEdit(call: Call<ContentResponse>): (r: Result<string, Thrown>)
    ensures call.Rejected? ==> r == Failure(SdkError(call.cause))
    ensures call.Resolved? && FirstCandidateParts(call.response).None? ==> r == Failure(TypeError)
    ensures call.Resolved? && FirstCandidateParts(call.response).Some? ==>
              match FirstImageUri(FirstCandidateParts(call.response).value)
              case None => r == Failure(NoImageReturned)
              case Some(uri) => r == Success(uri)
  {
    match call
    case Rejected(cause) => Failure(SdkError(cause))
    case Resolved(response) =>
      match FirstCandidateParts(response)
      case None => Failure(TypeError)
      case Some(parts) =>
        match FirstImageUri(parts)
        case None => Failure(NoImageReturned)
        case Some(uri) => Success(uri)
  }

  /**
   * The outcome of `editImage(prompt, image)`: the URI of the first inline part of
   * the first candidate; every failure surfaces as "Failed to edit image.".
   */
  function EditImageResult(prompt: string, image: UploadedImage, gemini: ContentRequest -> Call<ContentResponse>): (r: Result<string, string>)
    ensures var call := gemini(EditRequest(prompt, image));
      && (r.Success? <==> call.Resolved? && FirstCandidateParts(call.response).Some?
                          && FirstImageIndex(FirstCandidateParts(call.response).value).Some?)
      && (r.Success? ==>
            var parts := FirstCandidateParts(call.response).value;
            var blob := parts[FirstImageIndex(parts).value].inlineData.value;
            r.value == InlineDataUri(TemplateValue(blob.mimeType), TemplateValue(blob.data)))
      && (r.Failure? ==> r.error == EditFailedMessage)
  {
    CatchAndReplace(TryEdit(gemini(EditRequest(prompt, image))), EditFailedMessage)
  }

  /** The `for…of` loop of `editImage`: return from the first part with inline data. */
  method ScanParts(parts: seq<Part>) returns (r: Result<string, Thrown>)
    ensures FirstImageUri(parts).None? ==> r == Failure(NoImageReturned)
    ensures FirstImageUri(parts).Some? ==> r == Success(FirstImageUri(parts).value)
  {
    for i := 0 to |parts|
      invariant forall j :: 0 <= j < i ==> parts[j].inlineData.None?
    {
      if parts[i].inlineData.Some? {
        assert FirstImageIndex(parts) == Some(i);
        var blob := parts[i].inlineData.value;
        return Success(InlineDataUri(TemplateValue(blob.mimeType), TemplateValue(blob.data)));
      }
    }
    assert FirstImageIndex(parts).None?;
    return Failure(NoImageReturned);
  }

  /** `editImage(prompt, image)`. */
  method EditImage(prompt: string, image: UploadedImage, gemini: ContentRequest -> Call<ContentResponse>)
    returns (r: Result<string, string>)
    ensures r == EditImageResult(prompt, image, gemini)
  {
    var attempt: Result<string, Thrown>;
    var call := gemini(EditRequest(prompt, image));
    match call {
      case Rejected(cause) =>
        attempt := Failure(SdkError(cause));
      case Resolved(response) =>
        match FirstCandidateParts(response) {
          case None =>
            attempt := Failure(TypeError);
          case Some(parts) =>
            attempt := ScanParts(parts);
        }
    }
    r := CatchAndReplace(attempt, EditFailedMessage);
  }
}
