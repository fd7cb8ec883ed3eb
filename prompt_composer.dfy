/** `getSystemPrompt` of App.tsx: the final prompt sent for a Create-mode request. */
module PromptComposer {
  import opened Types

  const StickerPrefix := "sticker design, vector, vibrant colors, die-cut, white background. Prompt: "
  const LogoPrefix := "typography logo, clean, modern, vector, high contrast. Text: "
  const ComicPrefix := "comic book style, dynamic, panel art, bold lines, vibrant colors. Scene: "

  /** The fixed text put before the prompt: only Create mode with a styled function has one. */
  function TemplatePrefix(mode: Mode, f: CreateFunction): (r: string)
    ensures r == "" <==> mode == Edit || f == Free
    ensures r != "" ==> |r| > 2 && r[|r| - 2..] == ": "
  {
    if mode == Edit then ""
    else match f
      case Free => ""
      case Sticker => StickerPrefix
      case Text => LogoPrefix
      case Comic => ComicPrefix
  }

  /** The switch of `getSystemPrompt`, over the mode, the active create function and the prompt. */
  function SystemPrompt(mode: Mode, f: CreateFunction, prompt: string): (r: string)
    ensures r == TemplatePrefix(mode, f) + prompt
    ensures mode == Edit || f == Free ==> r == prompt
    ensures |r| >= |prompt| && r[|r| - |prompt|..] == prompt
  {
    if mode == Create then
      match f
      case Sticker => StickerPrefix + prompt
      case Text => LogoPrefix + prompt
      case Comic => ComicPrefix + prompt
      case Free => prompt
    else prompt
  }

  /** The three prefixes differ pairwise, and none of them is empty. */
  lemma PrefixesDistinct(f: CreateFunction, g: CreateFunction)
    ensures f != Free ==> TemplatePrefix(Create, f) != ""
    ensures TemplatePrefix(Create, f) == TemplatePrefix(Create, g) ==> f == g
  {
  }

  /** For a fixed mode and function the user's prompt can be read back from the result. */
  lemma SystemPromptInjective(mode: Mode, f: CreateFunction, p: string, q: string)
    requires SystemPrompt(mode, f, p) == SystemPrompt(mode, f, q)
    ensures p == q
  {
  }

  /** In Create mode the result tells the active function apart, whatever the prompt. */
  lemma SystemPromptDistinguishesFunctions(f: CreateFunction, g: CreateFunction, p: string)
    requires SystemPrompt(Create, f, p) == SystemPrompt(Create, g, p)
    ensures f == g
  {
  }
}
