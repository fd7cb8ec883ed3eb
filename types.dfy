/** The enumerations and the uploaded-image record of types.ts. */
module Types {
  import opened Wrappers

  /** The top-level choice between creating an image from text and editing one. */
  datatype Mode = Create | Edit

  /** The string value each `Mode` member carries in TypeScript. */
  function ModeTag(m: Mode): string {
    match m
    case Create => "create"
    case Edit => "edit"
  }

  /** Prompt templates offered in Create mode. */
  datatype CreateFunction = Free | Sticker | Text | Comic

  function CreateFunctionTag(f: CreateFunction): string {
    match f
    case Free => "free"
    case Sticker => "sticker"
    case Text => "text"
    case Comic => "comic"
  }

  /** Edit intents offered in Edit mode; only Compose changes the upload layout. */
  datatype EditFunction = AddRemove | Retouch | Style | Compose

  function EditFunctionTag(f: EditFunction): string {
    match f
    case AddRemove => "add-remove"
    case Retouch => "retouch"
    case Style => "style"
    case Compose => "compose"
  }

  const AllModes: seq<Mode> := [Create, Edit]
  const AllCreateFunctions: seq<CreateFunction> := [Free, Sticker, Text, Comic]
  const AllEditFunctions: seq<EditFunction> := [AddRemove, Retouch, Style, Compose]

  /** The tags of distinct positions of `xs` differ. */
  predicate TagsDistinct<T>(xs: seq<T>, tag: T -> string) {
    forall i, j :: 0 <= i < j < |xs| ==> tag(xs[i]) != tag(xs[j])
  }

  /** `Mode` has exactly the two members Create and Edit, with distinct tags. */
  lemma ModeMembers()
    ensures forall m: Mode :: m in AllModes
    ensures |AllModes| == 2 && TagsDistinct(AllModes, ModeTag)
  {
    forall m: Mode ensures m in AllModes {
      match m
      case Create => assert AllModes[0] == m;
      case Edit => assert AllModes[1] == m;
    }
  }

  /** `CreateFunction` has exactly four members, with pairwise-distinct tags. */
  lemma CreateFunctionMembers()
    ensures forall f: CreateFunction :: f in AllCreateFunctions
    ensures |AllCreateFunctions| == 4 && TagsDistinct(AllCreateFunctions, CreateFunctionTag)
  {
    forall f: CreateFunction ensures f in AllCreateFunctions {
      match f
      case Free => assert AllCreateFunctions[0] == f;
      case Sticker => assert AllCreateFunctions[1] == f;
      case Text => assert AllCreateFunctions[2] == f;
      case Comic => assert AllCreateFunctions[3] == f;
    }
  }

  /** `EditFunction` has exactly four members, with pairwise-distinct tags. */
  lemma EditFunctionMembers()
    ensures forall f: EditFunction :: f in AllEditFunctions
    ensures |AllEditFunctions| == 4 && TagsDistinct(AllEditFunctions, EditFunctionTag)
  {
    forall f: EditFunction ensures f in AllEditFunctions {
      match f
      case AddRemove => assert AllEditFunctions[0] == f;
      case Retouch => assert AllEditFunctions[1] == f;
      case Style => assert AllEditFunctions[2] == f;
      case Compose => assert AllEditFunctions[3] == f;
    }
  }

  /** The browser's `File` handle, reduced to what the core reads: its name and its `type`. */
  datatype File = File(name: string, mediaType: string)

  /**
   * `UploadedImage`: the file handle, the base64 payload without its data-URL header,
   * and the media type, as separate fields. The payload is `None` where JavaScript
   * would hold `undefined` (a data URL without a comma).
   */
  datatype UploadedImage = UploadedImage(file: File, base64: Option<string>, mimeType: string)
}
