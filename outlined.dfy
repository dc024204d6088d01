/** The outline-then-sections generator: one model call for a JSON outline,
    then one call per outline section, each given the texts written so far;
    no agents, no debate and no token accounting. */
module Outlined {
  import opened Wrappers
  import opened Text
  import opened Fences
  import opened Context
  import opened Story

  /** What each prompt embeds; the template wording around it is not modelled. */
  datatype Prompt =
    | OutlinePrompt(storyPrompt: string)
    | SectionPrompt(storyPrompt: string, section: SectionInfo, context: string)

  /** The model and the JSON decoder, as given functions. `model` yields the
      message content of the first choice, `None` when the call raises or the
      content is `None` (its `.strip()` then raises, and the same handler
      catches it); `decodeOutline` is `json.loads`, `None` for a decode error. */
  datatype Oracles = Oracles(
    model: Prompt -> Option<string>,
    decodeOutline: string -> Option<OutlineJson>)

  /** The text `generate_story_outline` hands to `json.loads`: the content
      stripped, its fences dropped and stripped again. */
  function OutlineText(content: string): (r: string)
    ensures |r| <= |content|
    ensures Stripped(r)
  {
    CleanJsonResponse(Strip(content))
  }

  /** A reply without fences is decoded from its stripped self. */
  lemma OutlineTextUnfenced(content: string)
    requires !StartsWith(Strip(content), Fence) && !EndsWith(Strip(content), Fence)
    ensures OutlineText(content) == Strip(content)
  {
    StripIdempotent(content);
  }

  /** `generate_story_outline`: the decoded outline, or `None` when the model
      call fails or the reply does not decode. Nothing checks how many
      sections the outline has. */
  function StoryOutline(o: Oracles, storyPrompt: string): (r: Option<OutlineJson>)
    ensures r.Some? ==> o.model(OutlinePrompt(storyPrompt)).Some?
    ensures o.model(OutlinePrompt(storyPrompt)).Some?
      ==> r == o.decodeOutline(OutlineText(o.model(OutlinePrompt(storyPrompt)).value))
  {
    var content := o.model(OutlinePrompt(storyPrompt));
    if content.None? then None else o.decodeOutline(OutlineText(content.value))
  }

  /** What `generate_story_section` returns for the texts `prev` written so
      far: the stripped content of the reply to the prompt carrying their
      context, or `None` when the call fails. */
  function SectionText(o: Oracles, section: SectionInfo, prev: seq<string>, storyPrompt: string): (r: Option<string>)
    ensures r.Some? ==> Stripped(r.value)
    ensures r.None? <==> o.model(SectionPrompt(storyPrompt, section, ContextOf(prev))).None?
    ensures o.model(SectionPrompt(storyPrompt, section, ContextOf(prev))).Some?
      ==> r == Some(Strip(o.model(SectionPrompt(storyPrompt, section, ContextOf(prev))).value))
  {
    var content := o.model(SectionPrompt(storyPrompt, section, ContextOf(prev)));
    if content.None? then None else Some(Strip(content.value))
  }

  /** `generate_story_section`: build the context of the earlier sections and
      ask the model for this one. */
  method GenerateStorySection(o: Oracles, section: SectionInfo, previousSections: seq<string>, storyPrompt: string)
    returns (content: Option<string>)
    ensures content == SectionText(o, section, previousSections, storyPrompt)
    ensures content.Some? ==> Stripped(content.value)
  {
    var context := BuildContext(previousSections);
    var reply := o.model(SectionPrompt(storyPrompt, section, context));
    if reply.None? {
      return None;
    }
    content := Some(Strip(reply.value));
  }

  /** A section as a step of the section loop: a missing text is a failed
      section; this generator never lets an exception escape a section. */
  function OutlinedStep(o: Oracles, storyPrompt: string): (SectionInfo, seq<string>) -> SectionResult {
    (section, prev) =>
      var text := SectionText(o, section, prev, storyPrompt);
      if text.Some? then Section(text.value) else NoSection
  }

  /** The section loop of this generator always ends normally: it stops at
      the first missing or empty section text, or at the end of the outline. */
  lemma OutlinedNeverRaises(o: Oracles, storyPrompt: string, sections: seq<SectionInfo>, prev: seq<string>)
    ensures !RunSections(OutlinedStep(o, storyPrompt), sections, prev).raised
  {
    var step := OutlinedStep(o, storyPrompt);
    var p := RunSections(step, sections, prev);
    RunSectionsStop(step, sections, prev);
    var n := |p.finals| - |prev|;
    if n < |sections| {
      assert !step(sections[n], p.finals).Raised?;
    }
  }

  const DefaultOutlinedTitle: string := "Generated Story"

  /** `generate_complete_outlined_story` for an already read prompt: no story
      for an empty prompt or a missing or falsy outline; otherwise the title
      and the entries of the sections finished before the first failure,
      `None` when there are none. */
  function OutlinedStory(o: Oracles, storyPrompt: string): (r: Option<string>)
    ensures r.Some? ==> storyPrompt != "" && StoryOutline(o, storyPrompt).Some? && StoryOutline(o, storyPrompt).value.OutlineObject?
  {
    if storyPrompt == "" then None
    else
      var outline := StoryOutline(o, storyPrompt);
      if outline.None? || outline.value.FalsyOutline? then None
      else
        var sections := outline.value.sections;
        var progress := RunSections(OutlinedStep(o, storyPrompt), sections, []);
        Assemble(outline.value.title, DefaultOutlinedTitle, Entries(sections, progress.finals))
  }

  /** A story is produced exactly when the prompt is non-empty, the outline
      decodes to an object and its first section comes back non-empty; it
      then opens with the outline's title, or "Generated Story". */
  lemma OutlinedStoryExists(o: Oracles, storyPrompt: string)
    ensures var outline := StoryOutline(o, storyPrompt);
      OutlinedStory(o, storyPrompt).Some?
      <==> (&& storyPrompt != ""
            && outline.Some? && outline.value.OutlineObject?
            && outline.value.sections != []
            && Produced(OutlinedStep(o, storyPrompt)(outline.value.sections[0], [])))
    ensures var outline := StoryOutline(o, storyPrompt);
      OutlinedStory(o, storyPrompt).Some?
      ==> StartsWith(OutlinedStory(o, storyPrompt).value, "# " + outline.value.title.GetOr(DefaultOutlinedTitle) + "\n\n")
  {
    var outline := StoryOutline(o, storyPrompt);
    if storyPrompt != "" && outline.Some? && outline.value.OutlineObject? {
      var sections := outline.value.sections;
      var step := OutlinedStep(o, storyPrompt);
      var p := RunSections(step, sections, []);
      RunSectionsStop(step, sections, []);
      if sections != [] && Produced(step(sections[0], [])) {
        assert |p.finals| > 0;
      }
    }
  }

  /** `generate_complete_outlined_story`, for the prompt `read_story_prompt`
      returned: the outline, the section loop that stops at the first
      failed section, and the assembly. */
  method GenerateCompleteOutlinedStory(o: Oracles, storyPrompt: string) returns (story: Option<string>)
    ensures story == OutlinedStory(o, storyPrompt)
  {
    if storyPrompt == "" {
      return None;
    }
    var outlineData := StoryOutline(o, storyPrompt);
    if outlineData.None? || outlineData.value.FalsyOutline? {
      return None;
    }
    var sections := outlineData.value.sections;
    ghost var step := OutlinedStep(o, storyPrompt);
    ghost var whole := RunSections(step, sections, []);
    assert sections[0..] == sections;

    var completeStory: seq<string> := [];
    var previousSections: seq<string> := [];
    var i := 0;
    while i < |sections|
      invariant 0 <= i <= |sections| && |previousSections| == i
      invariant completeStory == Entries(sections, previousSections)
      invariant RunSections(step, sections[i..], previousSections) == whole
      decreases |sections| - i
    {
      ghost var rest := sections[i..];
      assert rest[0] == sections[i] && rest[1..] == sections[i + 1..];
      var sectionContent := GenerateStorySection(o, sections[i], previousSections, storyPrompt);
      assert step(sections[i], previousSections) == if sectionContent.Some? then Section(sectionContent.value) else NoSection;
      if sectionContent.Some? && sectionContent.value != "" {
        EntriesSnoc(sections, previousSections, sectionContent.value);
        completeStory := completeStory + [SectionEntry(sections[i].title, sectionContent.value)];
        previousSections := previousSections + [sectionContent.value];
      } else {
        break;
      }
      i := i + 1;
    }
    assert whole.finals == previousSections;
    story := Assemble(outlineData.value.title, DefaultOutlinedTitle, completeStory);
  }
}
