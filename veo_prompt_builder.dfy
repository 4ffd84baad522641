/**
 * The video prompt assembly (`backend/utils/veo_prompt_builder.py`): the
 * optional context, custom prompt and animation notes are collected in a
 * fixed order and joined by blank lines, with a stock prompt when none is
 * given.
 */
module VeoPromptBuilder {
  import opened Wrappers
  import opened Text

  const DefaultPrompt: string := "Generate a video"
  const ContextPrefix: string := "Context: "
  const NotesPrefix: string := "Animation notes: "
  const Separator: string := "\n\n"

  /** Python truthiness of an optional string: present and non-empty. */
  predicate Given(s: Option<string>)
  {
    s.Some? && s.value != ""
  }

  /** The parts the builder collects, in the order it appends them. */
  function PromptParts(customPrompt: Option<string>, globalContext: Option<string>, annotation: Option<string>): (r: seq<string>)
    ensures |r| <= 3
    ensures r == [] <==> !Given(customPrompt) && !Given(globalContext) && !Given(annotation)
    ensures Given(customPrompt) ==> customPrompt.value in r
  {
    (if Given(globalContext) then [ContextPrefix + globalContext.value] else []) +
    (if Given(customPrompt) then [customPrompt.value] else []) +
    (if Given(annotation) then [NotesPrefix + annotation.value] else [])
  }

  /** The prompt for the given parts: joined by blank lines, or the stock prompt when there are none. */
  function VideoPrompt(customPrompt: Option<string>, globalContext: Option<string>, annotation: Option<string>): string
  {
    var parts := PromptParts(customPrompt, globalContext, annotation);
    if parts == [] then DefaultPrompt else Join(Separator, parts)
  }

  /** `create_video_prompt`: appends each given part, then joins them, or returns the stock prompt. */
  method CreateVideoPrompt(customPrompt: Option<string>, globalContext: Option<string>, annotation: Option<string>)
    returns (prompt: string)
    ensures prompt == VideoPrompt(customPrompt, globalContext, annotation)
  {
    var parts: seq<string> := [];
    if Given(globalContext) {
      parts := parts + [ContextPrefix + globalContext.value];
    }
    if Given(customPrompt) {
      parts := parts + [customPrompt.value];
    }
    if Given(annotation) {
      parts := parts + [NotesPrefix + annotation.value];
    }
    assert parts == PromptParts(customPrompt, globalContext, annotation);
    prompt := if |parts| > 0 then Join(Separator, parts) else DefaultPrompt;
  }

  /** With nothing given, the prompt is the stock one. */
  lemma NothingGivenIsDefault(customPrompt: Option<string>, globalContext: Option<string>, annotation: Option<string>)
    requires !Given(customPrompt) && !Given(globalContext) && !Given(annotation)
    ensures VideoPrompt(customPrompt, globalContext, annotation) == DefaultPrompt
  {
  }

  /** An empty string is treated exactly like an absent argument. */
  lemma EmptyIsAbsent(customPrompt: Option<string>, globalContext: Option<string>, annotation: Option<string>)
    ensures VideoPrompt(Some(""), globalContext, annotation) == VideoPrompt(None, globalContext, annotation)
    ensures VideoPrompt(customPrompt, Some(""), annotation) == VideoPrompt(customPrompt, None, annotation)
    ensures VideoPrompt(customPrompt, globalContext, Some("")) == VideoPrompt(customPrompt, globalContext, None)
  {
  }

  /** A single given part is the whole prompt, with no separator. */
  lemma SinglePartStandsAlone(text: string)
    requires text != ""
    ensures VideoPrompt(Some(text), None, None) == text
    ensures VideoPrompt(None, Some(text), None) == ContextPrefix + text
    ensures VideoPrompt(None, None, Some(text)) == NotesPrefix + text
  {
    assert PromptParts(Some(text), None, None) == [text];
    assert PromptParts(None, Some(text), None) == [ContextPrefix + text];
    assert PromptParts(None, None, Some(text)) == [NotesPrefix + text];
  }

  /** With everything given, context comes first, then the custom prompt verbatim, then the notes. */
  lemma FullPromptOrder(customPrompt: string, globalContext: string, annotation: string)
    requires customPrompt != "" && globalContext != "" && annotation != ""
    ensures VideoPrompt(Some(customPrompt), Some(globalContext), Some(annotation)) ==
      ContextPrefix + globalContext + Separator + customPrompt + Separator + NotesPrefix + annotation
  {
    var parts := PromptParts(Some(customPrompt), Some(globalContext), Some(annotation));
    assert parts == [ContextPrefix + globalContext, customPrompt, NotesPrefix + annotation];
    assert parts[1..][1..] == [NotesPrefix + annotation];
    assert Join(Separator, parts[1..]) == customPrompt + Separator + (NotesPrefix + annotation);
  }
}
