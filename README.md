# Simple story writer: a verified model of its two story pipelines

The repository writes Japanese short stories with a remote language model.
Two of its generators are modelled here:

- **The debate generator** (`gemini_debate_story_generator.py`). The
  `StoryDebateGenerator` object asks the model for a JSON outline. Each
  outline section then goes through a three-role debate:
  - an affirmative writer drafts the section;
  - a negative critic rewrites it;
  - a judge/editor picks the final text, answering in JSON.

  The object keeps a token-usage dictionary with global and per-agent
  counters, and a debate log with one record per judge reply that decodes.
- **The outlined generator** (`gemini_outlined_story_generator.py`). It makes
  one outline call, then one call per section, and keeps no state.

Both generators have the same three parts:
- **Outline.** The reply has its Markdown code fences removed and is decoded
  as JSON.
- **Section loop.** It walks the outline in order. Each call gets a
  "Previous sections of the story" context built from the texts finished so
  far. The loop stops at the first section that comes back empty or missing.
- **Assembly.** The story is `# title`, then the `## section title` blocks
  joined by blank lines. It is `None` when no section was finished.

Every model call is a function parameter (an *oracle*) from the prompt's
content to the reply, and so is `json.loads`. The model states exactly what
each generator does with what these oracles return.

Modules:
- `Text` (`text.dfy`): Python's `str.strip` with its whitespace set, `join`,
  and decimal rendering of section numbers.
- `Fences` (`fences.dfy`): `_clean_json_response` and the inline copy in the
  outlined generator.
- `Context` (`context.dfy`): the previous-sections context. It is a
  specification function plus the `+=` loop as a method.
- `Usage` (`usage.dfy`): the `token_usage` dictionary, as a value and as the
  `TokenUsage` class.
- `Story` (`story.dfy`): outline entries, the section loop as a function over
  a step, and the final assembly.
- `Debate` (`debate.dfy`): the debate generator. It has specification
  functions and the `StoryDebateGenerator` class, whose methods are proved
  equal to them.
- `Outlined` (`outlined.dfy`): the outlined generator.

In these places the code's behaviour is easy to misread; the model follows
the code:
- A debate record is written only when the judge's reply decodes as JSON, and
  then even when it decodes to a falsy value such as `{}`. It is not written
  once per section.
- A judge decision whose `final_section` is `""` yields an empty section, and
  that stops the loop like a failed section.
- The per-agent buckets have no `total_tokens` counter. Only prompt tokens,
  completion tokens and calls add up between the global and per-agent
  counters.
- A decision that is truthy but lacks `preferred_version`, `reasoning` or
  `final_section` raises a `KeyError`, or a `TypeError` when it is not an
  object, and nothing catches either. The model turns this into a crashed run
  (`Crashed`).

## Model

| member | source | states |
|---|---|---|
| Text.Strip | gemini_debate_story_generator.py:102 | the result is no longer than the input and starts and ends with a non-whitespace character (or is empty) |
| Text.StripOfPadded | gemini_debate_story_generator.py:102 | stripping whitespace padding from a text that starts and ends with non-whitespace gives back that text |
| Text.StripShape | gemini_debate_story_generator.py:102 | the result is a contiguous part of the input with only whitespace removed on either side |
| Text.StripIdempotent | gemini_outlined_story_generator.py:85-96 | stripping twice is the same as stripping once |
| Text.Join | gemini_debate_story_generator.py:409 | the empty list joins to "" and a one-item list to that item; otherwise the joined text starts with the first item and ends with the last |
| Text.JoinSnoc | gemini_debate_story_generator.py:409 | joining one more entry appends the separator and that entry |
| Text.NatToString | gemini_debate_story_generator.py:184 | a section number renders as a non-empty run of decimal digits with no leading zero |
| Text.ParseNatToString | gemini_debate_story_generator.py:184 | the rendered number reads back as the same number |
| Text.NatToStringInjective | gemini_debate_story_generator.py:184 | different section numbers render differently |
| Fences.CleanJsonResponse | gemini_debate_story_generator.py:92-102 | the result is stripped and never longer than the input; text with a fence at neither end is only stripped |
| Fences.FenceThenJson | gemini_debate_story_generator.py:94-97 | a text fenced by a bare fence whose content does not start with "json" does not start with the json fence |
| Fences.CleanJsonFenced | gemini_debate_story_generator.py:92-102 | "```json" + s + "```" cleans to strip(s) |
| Fences.CleanBareFenced | gemini_debate_story_generator.py:92-102 | "```" + s + "```" cleans to strip(s) when s does not start with "json" |
| Fences.CleanOpeningOnly | gemini_debate_story_generator.py:94-100 | "```json" + s with no closing fence cleans to strip(s): the opening fence is dropped on its own |
| Fences.CleanClosingOnly | gemini_debate_story_generator.py:94-100 | s + "```" with no opening fence cleans to strip(s): the closing fence is dropped on its own |
| Fences.CleanPaddedJsonFence | gemini_outlined_story_generator.py:85-96 | a json-fenced reply with whitespace around it, stripped, fences dropped and stripped again as the outlined generator does, gives strip of the block's content |
| Context.ContextOf | gemini_debate_story_generator.py:180-184 | the context is empty exactly when there are no previous sections, and otherwise starts with the header |
| Context.BlocksSnoc | gemini_debate_story_generator.py:183-184 | one more section adds exactly one block, numbered after the others |
| Context.ContextSnoc | gemini_debate_story_generator.py:180-184 | the context of n+1 sections is the context of n sections (or the header) plus one block numbered n+1 |
| Context.BuildContext | gemini_outlined_story_generator.py:120-124 | the `+=` loop builds exactly the header followed by blocks 1..n, or "" |
| Usage.Initial | gemini_debate_story_generator.py:19-30 | every global counter is 0, and there is exactly one all-zero bucket for each of the four agents |
| Usage.AddCall | gemini_debate_story_generator.py:63-79 | a reply without usage changes nothing; with usage, no counter decreases, and every bucket other than the calling agent's is unchanged |
| Usage.AddCallsAppend | gemini_debate_story_generator.py:63-79 | recording two runs of calls is recording the first, then the second |
| Usage.AddCallsSnoc | gemini_debate_story_generator.py:63-79 | recording one more call is one more update |
| Usage.AddCallsCounts | gemini_debate_story_generator.py:70-73 | `api_calls` grows by the number of replies with usage, and `total_prompt_tokens`, `total_completion_tokens` and `total_tokens` by the sums of the counts they reported |
| Usage.AddCallsByAgent | gemini_debate_story_generator.py:76-79 | each agent's bucket grows by exactly the prompt tokens, completion tokens and number of that agent's calls that reported usage |
| Usage.AddCallsMonotone | gemini_debate_story_generator.py:70-79 | every counter only grows over any run of calls |
| Usage.InitialBalanced | gemini_debate_story_generator.py:19-30 | in the initial dictionary the per-agent sums equal the global counters |
| Usage.SumOverZero | gemini_debate_story_generator.py:24-29 | buckets that are all zero sum to zero |
| Usage.SumOverUpdate | gemini_debate_story_generator.py:76-79 | updating one known bucket changes the per-agent sum by exactly that bucket's change |
| Usage.SumOverUnaffected | gemini_debate_story_generator.py:76 | updating a bucket outside the four known agents leaves the per-agent sum alone |
| Usage.AddCallBalanced | gemini_debate_story_generator.py:63-79 | a call keeps the per-agent calls, prompt and completion sums equal to `api_calls` and the global token counters exactly when it reported no usage or came from a known agent |
| Usage.KnownAgentsAppend | gemini_debate_story_generator.py:25-28 | two runs of calls by known agents together are calls by known agents |
| Usage.AddCallsBalanced | gemini_debate_story_generator.py:63-79 | any run of calls by known agents keeps the counters balanced |
| Usage.TokenUsage.constructor | gemini_debate_story_generator.py:19-30 | the counters start at the initial dictionary |
| Usage.TokenUsage.Record | gemini_debate_story_generator.py:64-79 | the counters become exactly the old counters updated with the call |
| Story.Entries | gemini_debate_story_generator.py:399 | entry k is "## " + title of outline section k + "\n\n" + text k |
| Story.EntriesSnoc | gemini_outlined_story_generator.py:201-203 | appending to both lists keeps the entries in step with the finished texts |
| Story.Assemble | gemini_debate_story_generator.py:407-432 | no story exactly when no entry exists, otherwise the story starts with "# " + title (or the default) + "\n\n"; a one-entry story is that header followed by the entry |
| Story.AssembleSnoc | gemini_debate_story_generator.py:409 | one more entry appends a blank line and the entry |
| Story.RunSections | gemini_debate_story_generator.py:393-404 | the finished texts extend the starting list, by at most one per outline section, and all are non-empty |
| Story.RunSectionsContext | gemini_debate_story_generator.py:394-400 | section k is produced from exactly the texts of sections 1..k-1, in order, and yields text k |
| Story.RunSectionsStop | gemini_debate_story_generator.py:398-404 | the loop stops at the first section without a non-empty text; the run has raised exactly when that section raised |
| Debate.OutlineOf | gemini_debate_story_generator.py:151-174 | an outline only from a usable reply, and then exactly what the decoder makes of the cleaned reply |
| Debate.JudgeDecision | gemini_debate_story_generator.py:276-302 | a decision only from a usable judge reply, and then exactly what the decoder makes of the cleaned reply |
| Debate.Decide | gemini_debate_story_generator.py:325-332 | a missing or falsy decision gives the affirmative draft; a complete truthy decision gives its `final_section`; a truthy decision missing one of the three keys raises, and only such a decision does |
| Debate.SectionDebate | gemini_debate_story_generator.py:304-332 | one to three calls; no section exactly when only the affirmative writer was called; a logged record means all three were called and carries this section's number and title |
| Debate.DebateStoryOf | gemini_debate_story_generator.py:363-432 | an empty prompt makes no call and no story; otherwise the first call is the outline call |
| Debate.TextOf | gemini_debate_story_generator.py:55-84 | a text comes only from a reply with content, and non-empty content gives exactly its stripped form |
| Debate.DebateCalls | gemini_debate_story_generator.py:311-324 | the debate calls the affirmative writer, then the critic, then the judge, each counted with the usage of its own reply to the prompt carrying the context and the drafts so far; the critic is called only after a usable draft |
| Debate.DebateAffirmativeFails | gemini_debate_story_generator.py:311-315 | no section exactly when the affirmative draft is missing or empty, and then nothing is logged and only one call is made |
| Debate.DebateNegativeFails | gemini_debate_story_generator.py:317-321 | a failed critic gives the affirmative draft verbatim, with no judge call and no log record |
| Debate.DebateJudged | gemini_debate_story_generator.py:276-332 | the debate is logged exactly when the judge reply decodes; a falsy or missing decision falls back to the affirmative draft; a complete decision gives `final_section`; an incomplete truthy one raises |
| Debate.DebateAgents | gemini_debate_story_generator.py:176-302 | every call of a debate is made under a known agent name |
| Debate.DebateTraceAgents | gemini_debate_story_generator.py:393-404 | every call of the section loop is made under a known agent name |
| Debate.DebateUnfold | gemini_debate_story_generator.py:393-404 | one turn of the loop: a non-empty section continues with its text appended, anything else ends the loop |
| Debate.DebateTraceRecords | gemini_debate_story_generator.py:284-292 | the log gets at most one record per section the loop attempted |
| Debate.DebateStoryEnds | gemini_debate_story_generator.py:393-432 | a run crashes exactly when the section the loop stopped at raised; a story starts with the outline title or "Generated Debate Story" |
| Debate.DebateStoryBalanced | gemini_debate_story_generator.py:19-30 | a whole run keeps the per-agent counters adding up to the global ones |
| Debate.StoryDebateGenerator.constructor | gemini_debate_story_generator.py:18-30 | the log starts empty and the counters at the initial dictionary |
| Debate.StoryDebateGenerator.CallModel | gemini_debate_story_generator.py:44-90 | the text is the stripped content or nothing, and the counters are updated with this reply's usage only |
| Debate.StoryDebateGenerator.GenerateStoryOutline | gemini_debate_story_generator.py:151-174 | the outline is the decoded cleaned reply, or nothing when the reply is missing or does not decode; one call is counted |
| Debate.StoryDebateGenerator.AffirmativeWriter | gemini_debate_story_generator.py:176-206 | the draft is the model's text for the prompt carrying this section and the context of the earlier texts |
| Debate.StoryDebateGenerator.NegativeCritic | gemini_debate_story_generator.py:208-241 | the draft is the model's text for the prompt carrying the section, the context and the affirmative draft |
| Debate.StoryDebateGenerator.JudgeEditor | gemini_debate_story_generator.py:243-302 | the decision is the decoded judge reply; the log grows by exactly one full record when it decodes and is unchanged otherwise |
| Debate.StoryDebateGenerator.GenerateSectionWithDebate | gemini_debate_story_generator.py:304-332 | the result, the new log and the new counters are those of the debate specification |
| Debate.StoryDebateGenerator.GenerateCompleteDebateStory | gemini_debate_story_generator.py:363-432 | the outcome, the log records and the counter updates of the whole run are those of the run specification |
| Outlined.OutlineText | gemini_outlined_story_generator.py:85-96 | the text handed to the decoder is stripped and no longer than the reply |
| Outlined.OutlineTextUnfenced | gemini_outlined_story_generator.py:85-96 | a reply without fences is decoded from its stripped self |
| Outlined.StoryOutline | gemini_outlined_story_generator.py:72-114 | no outline when the call fails; otherwise exactly what the decoder makes of the cleaned reply, whatever its section count |
| Outlined.SectionText | gemini_outlined_story_generator.py:116-158 | the section is exactly `Strip` of the reply to the prompt carrying the context, and is missing exactly when the call fails |
| Outlined.GenerateStorySection | gemini_outlined_story_generator.py:116-158 | builds the context and returns exactly that section text |
| Outlined.OutlinedStory | gemini_outlined_story_generator.py:160-222 | a story only for a non-empty prompt whose outline decodes to an object |
| Outlined.OutlinedNeverRaises | gemini_outlined_story_generator.py:140-158 | the outlined section loop never ends by an exception |
| Outlined.OutlinedStoryExists | gemini_outlined_story_generator.py:169-222 | there is a story exactly when the prompt is non-empty, the outline is an object and its first section comes back non-empty; the story starts with the title or "Generated Story" |
| Outlined.GenerateCompleteOutlinedStory | gemini_outlined_story_generator.py:160-222 | the loop and assembly return exactly the run specification's story |

## Left out

- The model calls themselves (the OpenAI client to the Gemini endpoint) are network I/O. Each call is an oracle from what the prompt embeds to the reply. The same prompt therefore always gets the same reply.
- The prompt templates' wording is not modelled. A prompt is modelled by the values it embeds: the story prompt, the section, the context and the drafts.
- `json.loads` and `json.dump` are library code. Decoding is an oracle that returns the decoded outline or judge decision, or `None` for a decode error.
- File I/O is not modelled: `read_story_prompt` (its result is the parameter `storyPrompt`), and the writes of the outline, story, debate log and token log.
- `main` and the `GEMINI_API_KEY` environment check are left out.
- Console output is left out. So is `print_token_usage_summary`, whose cost estimate uses floating point.
- Outline values other than a falsy value or an object with a list of sections are left out. This covers a truthy list, an object without `outline`, and sections without `section`, `title` or `summary`. Each makes the source raise at the outline printout, and that printout is not part of this model.
- Outline fields are modelled as strings only: the outline's `title` and each section's `title` and `summary`, with `section` as an integer. The source also renders other JSON values: a `null` title gives the header "# None", and a numeric section title gives "## 3".
- Judge decisions are modelled with string-valued fields only. Non-string `final_section` values are not modelled.
- Usage.TokenUsage.Record: `prompt_tokens`, `completion_tokens` and `total_tokens` are taken as natural numbers. The API's `None` or negative values are not modelled.
- `save_token_usage_log` is not part of this model: it only writes the dictionary to a file.
- gemini_basic_story_generator.py is not part of this model. It is a single model call and one concatenation.
