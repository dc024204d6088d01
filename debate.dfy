/**
 * The multi-agent debate generator (`StoryDebateGenerator`): an outline,
 * then for every outline section an affirmative draft, a negative rewrite
 * and a judge's decision, with fallbacks to the affirmative draft, a debate
 * log and token accounting.
 *
 * The model service and the JSON decoder are oracles: `Oracles.model` gives
 * the reply to a prompt, and `decodeOutline`/`decodeJudge` give what
 * `json.loads` returns for a text (`None` for a decoding error).
 */
module Debate {
  import opened Wrappers
  import opened Text
  import opened Fences
  import opened Context
  import opened Usage
  import opened Story

  /** What each prompt embeds; the surrounding template text is left out. */
  datatype Prompt =
    | OutlinePrompt(storyPrompt: string)
    | AffirmativePrompt(storyPrompt: string, section: SectionInfo, context: string)
    | NegativePrompt(storyPrompt: string, section: SectionInfo, context: string, affirmativeDraft: string)
    | JudgePrompt(section: SectionInfo, affirmativeDraft: string, negativeDraft: string)

  /** The outcome of one chat-completions request: an exception, an empty
      response, no choices or no message (`Failed`), or a message whose
      content may be missing, with the usage block if the response had one. */
  datatype Reply = Failed | Replied(usage: Option<UsageReport>, content: Option<string>)

  /** What `json.loads` produced for the judge's reply: an object (its
      values taken as strings), a falsy non-object (`null`, `false`, `0`,
      `""`, `[]`) or a truthy non-object, which cannot be indexed by a key. */
  datatype JudgeJson = JudgeObject(fields: map<string, string>) | FalsyScalar | TruthyScalar

  /** Python truthiness of the decoded judge value. */
  predicate Truthy(j: JudgeJson) {
    match j
    case JudgeObject(fields) => fields != map[]
    case FalsyScalar => false
    case TruthyScalar => true
  }

  /** The decision has the three keys the generator reads from it. */
  predicate Complete(j: JudgeJson) {
    j.JudgeObject? && "preferred_version" in j.fields && "reasoning" in j.fields && "final_section" in j.fields
  }

  /** One entry of `debate_log`. */
  datatype DebateRecord = DebateRecord(
    section: int,
    title: string,
    affirmativeDraft: string,
    negativeDraft: string,
    judgeDecision: JudgeJson)

  datatype Oracles = Oracles(
    model: Prompt -> Reply,
    decodeOutline: string -> Option<OutlineJson>,
    decodeJudge: string -> Option<JudgeJson>)

  /** The usage `_call_model` tracks for a reply. */
  function UsageOf(reply: Reply): Option<UsageReport> {
    if reply.Replied? then reply.usage else None
  }

  /** The value `_call_model` returns: the stripped content, or `None` when
      the request failed or the content is missing or empty. */
  function TextOf(reply: Reply): (r: Option<string>)
    ensures r.Some? ==> reply.Replied? && Stripped(r.value)
    ensures r.Some? ==> reply.content.Some? && |r.value| <= |reply.content.value|
    ensures reply.Replied? && reply.content.Some? && reply.content.value != "" ==> r == Some(Strip(reply.content.value))
  {
    match reply
    case Failed => None
    case Replied(_, content) => if content.Some? && content.value != "" then Some(Strip(content.value)) else None
  }

  /** Python truthiness of a `str` or `None`. */
  predicate Usable(t: Option<string>) {
    t.Some? && t.value != ""
  }

  function OutlineCall(o: Oracles, storyPrompt: string): AgentCall {
    AgentCall(OutlineAgent, UsageOf(o.model(OutlinePrompt(storyPrompt))))
  }

  /** What `generate_story_outline` returns. */
  function OutlineOf(o: Oracles, storyPrompt: string): (r: Option<OutlineJson>)
    ensures r.Some? ==> Usable(TextOf(o.model(OutlinePrompt(storyPrompt))))
    ensures Usable(TextOf(o.model(OutlinePrompt(storyPrompt))))
      ==> r == o.decodeOutline(CleanJsonResponse(TextOf(o.model(OutlinePrompt(storyPrompt))).value))
  {
    var response := TextOf(o.model(OutlinePrompt(storyPrompt)));
    if Usable(response) then o.decodeOutline(CleanJsonResponse(response.value)) else None
  }

  function AffirmativeReply(o: Oracles, section: SectionInfo, prev: seq<string>, storyPrompt: string): Reply {
    o.model(AffirmativePrompt(storyPrompt, section, ContextOf(prev)))
  }

  function NegativeReply(o: Oracles, section: SectionInfo, prev: seq<string>, storyPrompt: string, affirmative: string): Reply {
    o.model(NegativePrompt(storyPrompt, section, ContextOf(prev), affirmative))
  }

  function JudgeReply(o: Oracles, section: SectionInfo, affirmative: string, negative: string): Reply {
    o.model(JudgePrompt(section, affirmative, negative))
  }

  /** What `judge_editor` returns: the decoded reply, or `None` when the
      reply is empty or does not decode. */
  function JudgeDecision(o: Oracles, section: SectionInfo, affirmative: string, negative: string): (r: Option<JudgeJson>)
    ensures r.Some? ==> Usable(TextOf(JudgeReply(o, section, affirmative, negative)))
    ensures Usable(TextOf(JudgeReply(o, section, affirmative, negative)))
      ==> r == o.decodeJudge(CleanJsonResponse(TextOf(JudgeReply(o, section, affirmative, negative)).value))
  {
    var response := TextOf(JudgeReply(o, section, affirmative, negative));
    if Usable(response) then o.decodeJudge(CleanJsonResponse(response.value)) else None
  }

  /** One section's debate: what it returns, the record it logs (if any) and
      the model calls it makes, in order. */
  datatype DebateOutcome = DebateOutcome(result: SectionResult, record: Option<DebateRecord>, calls: seq<AgentCall>)

  function Records(record: Option<DebateRecord>): seq<DebateRecord> {
    if record.Some? then [record.value] else []
  }

  /** The judge's stage once both drafts exist (lines 324-332). */
  function Decide(affirmative: string, decision: Option<JudgeJson>): (r: SectionResult)
    ensures r != NoSection
    ensures decision.None? || !Truthy(decision.value) ==> r == Section(affirmative)
    ensures decision.Some? && Complete(decision.value) ==> r == Section(decision.value.fields["final_section"])
    ensures r == Raised <==> decision.Some? && Truthy(decision.value) && !Complete(decision.value)
    ensures r.Section? && r.text != affirmative
      ==> decision.Some? && Complete(decision.value) && r.text == decision.value.fields["final_section"]
  {
    if decision.None? || !Truthy(decision.value) then Section(affirmative)
    else if Complete(decision.value) then Section(decision.value.fields["final_section"])
    else Raised
  }

  /** `generate_section_with_debate` together with the logging in
      `judge_editor`, as a value. */
  function SectionDebate(o: Oracles, section: SectionInfo, prev: seq<string>, storyPrompt: string): (r: DebateOutcome)
    ensures 1 <= |r.calls| <= 3
    ensures r.result == NoSection <==> |r.calls| == 1
    ensures r.record.Some? ==> |r.calls| == 3 && r.record.value.section == section.number && r.record.value.title == section.title
  {
    var affirmativeReply := AffirmativeReply(o, section, prev, storyPrompt);
    var affirmativeCall := AgentCall(AffirmativeAgent, UsageOf(affirmativeReply));
    var affirmative := TextOf(affirmativeReply);
    if !Usable(affirmative) then DebateOutcome(NoSection, None, [affirmativeCall])
    else
      var negativeReply := NegativeReply(o, section, prev, storyPrompt, affirmative.value);
      var negativeCall := AgentCall(NegativeAgent, UsageOf(negativeReply));
      var negative := TextOf(negativeReply);
      if !Usable(negative) then DebateOutcome(Section(affirmative.value), None, [affirmativeCall, negativeCall])
      else
        var judgeCall := AgentCall(JudgeAgent, UsageOf(JudgeReply(o, section, affirmative.value, negative.value)));
        var decision := JudgeDecision(o, section, affirmative.value, negative.value);
        var record := if decision.Some? then Some(DebateRecord(section.number, section.title, affirmative.value, negative.value, decision.value)) else None;
        DebateOutcome(Decide(affirmative.value, decision), record, [affirmativeCall, negativeCall, judgeCall])
  }

  function AffirmativeText(o: Oracles, section: SectionInfo, prev: seq<string>, storyPrompt: string): Option<string> {
    TextOf(AffirmativeReply(o, section, prev, storyPrompt))
  }

  /** The calls of one debate go affirmative writer, negative critic, judge,
      the first carrying the usage of the reply to the prompt with the
      context of `prev`; the critic is asked only after a usable draft. */
  lemma DebateCalls(o: Oracles, section: SectionInfo, prev: seq<string>, storyPrompt: string)
    ensures var d := SectionDebate(o, section, prev, storyPrompt);
      && 1 <= |d.calls| <= 3
      && d.calls[0] == AgentCall(AffirmativeAgent, UsageOf(AffirmativeReply(o, section, prev, storyPrompt)))
      && (|d.calls| >= 2 ==> d.calls[1] == AgentCall(NegativeAgent,
            UsageOf(NegativeReply(o, section, prev, storyPrompt, AffirmativeText(o, section, prev, storyPrompt).value))))
      && (|d.calls| == 3 ==>
            var affirmative := AffirmativeText(o, section, prev, storyPrompt).value;
            var negative := TextOf(NegativeReply(o, section, prev, storyPrompt, affirmative)).value;
            d.calls[2] == AgentCall(JudgeAgent, UsageOf(JudgeReply(o, section, affirmative, negative))))
      && (|d.calls| == 1 <==> !Usable(AffirmativeText(o, section, prev, storyPrompt)))
  {
  }

  /** Without a usable affirmative draft the debate yields no section, logs
      nothing and asks neither the critic nor the judge; with one it always
      yields a section or an exception. */
  lemma DebateAffirmativeFails(o: Oracles, section: SectionInfo, prev: seq<string>, storyPrompt: string)
    ensures var d := SectionDebate(o, section, prev, storyPrompt);
      && (d.result == NoSection <==> !Usable(AffirmativeText(o, section, prev, storyPrompt)))
      && (d.result == NoSection ==> d.record.None? && |d.calls| == 1)
  {
  }

  /** When the negative critic fails, the section is the affirmative draft
      verbatim, the judge is not asked and nothing is logged. */
  lemma DebateNegativeFails(o: Oracles, section: SectionInfo, prev: seq<string>, storyPrompt: string)
    requires Usable(AffirmativeText(o, section, prev, storyPrompt))
    requires !Usable(TextOf(NegativeReply(o, section, prev, storyPrompt, AffirmativeText(o, section, prev, storyPrompt).value)))
    ensures var d := SectionDebate(o, section, prev, storyPrompt);
      d.result == Section(AffirmativeText(o, section, prev, storyPrompt).value) && d.record.None? && |d.calls| == 2
  {
  }

  /** Once both drafts exist the judge is asked. The debate is logged exactly
      when the judge's reply decodes, with the section number, title, both
      drafts and the decision. A missing, undecodable or falsy decision
      falls back to the affirmative draft; a truthy decision with
      `preferred_version`, `reasoning` and `final_section` gives
      `final_section`; any other truthy decision raises. */
  lemma DebateJudged(o: Oracles, section: SectionInfo, prev: seq<string>, storyPrompt: string)
    requires Usable(AffirmativeText(o, section, prev, storyPrompt))
    requires Usable(TextOf(NegativeReply(o, section, prev, storyPrompt, AffirmativeText(o, section, prev, storyPrompt).value)))
    ensures var affirmative := AffirmativeText(o, section, prev, storyPrompt).value;
      var negative := TextOf(NegativeReply(o, section, prev, storyPrompt, affirmative)).value;
      var decision := JudgeDecision(o, section, affirmative, negative);
      var d := SectionDebate(o, section, prev, storyPrompt);
      && |d.calls| == 3
      && d.record == (if decision.Some? then Some(DebateRecord(section.number, section.title, affirmative, negative, decision.value)) else None)
      && (decision.None? || !Truthy(decision.value) ==> d.result == Section(affirmative))
      && (decision.Some? && Truthy(decision.value) && Complete(decision.value)
          ==> d.result == Section(decision.value.fields["final_section"]))
      && (decision.Some? && Truthy(decision.value) && !Complete(decision.value) ==> d.result == Raised)
  {
  }

  /** The debate as a step of the section loop. */
  function DebateStep(o: Oracles, storyPrompt: string): (SectionInfo, seq<string>) -> SectionResult {
    (section, prev) => SectionDebate(o, section, prev, storyPrompt).result
  }

  /** What the section loop leaves behind besides the texts: the records it
      logged and the model calls it made, in order. */
  datatype Trace = Trace(records: seq<DebateRecord>, calls: seq<AgentCall>)

  function DebateTrace(o: Oracles, sections: seq<SectionInfo>, prev: seq<string>, storyPrompt: string): Trace
    decreases |sections|
  {
    if sections == [] then Trace([], [])
    else
      var d := SectionDebate(o, sections[0], prev, storyPrompt);
      if Produced(d.result) then
        var rest := DebateTrace(o, sections[1..], prev + [d.result.text], storyPrompt);
        Trace(Records(d.record) + rest.records, d.calls + rest.calls)
      else Trace(Records(d.record), d.calls)
  }

  lemma DebateAgents(o: Oracles, section: SectionInfo, prev: seq<string>, storyPrompt: string)
    ensures KnownAgents(SectionDebate(o, section, prev, storyPrompt).calls)
  {
    var calls := SectionDebate(o, section, prev, storyPrompt).calls;
    DebateCalls(o, section, prev, storyPrompt);
    assert calls[0].agent == Agents[1];
    assert |calls| >= 2 ==> calls[1].agent == Agents[2];
    assert |calls| == 3 ==> calls[2].agent == Agents[3];
  }

  /** Every call of the section loop is made by one of the known agents. */
  lemma {:induction false} DebateTraceAgents(o: Oracles, sections: seq<SectionInfo>, prev: seq<string>, storyPrompt: string)
    ensures KnownAgents(DebateTrace(o, sections, prev, storyPrompt).calls)
    decreases |sections|
  {
    if sections != [] {
      var d := SectionDebate(o, sections[0], prev, storyPrompt);
      DebateAgents(o, sections[0], prev, storyPrompt);
      if Produced(d.result) {
        var rest := DebateTrace(o, sections[1..], prev + [d.result.text], storyPrompt);
        DebateTraceAgents(o, sections[1..], prev + [d.result.text], storyPrompt);
        KnownAgentsAppend(d.calls, rest.calls);
      }
    }
  }

  /** One turn of the section loop, at section `i`: the debate of section
      `i` decides whether the loop goes on, with its text appended. */
  lemma DebateUnfold(o: Oracles, storyPrompt: string, sections: seq<SectionInfo>, i: nat, prev: seq<string>)
    requires i < |sections|
    ensures var d := SectionDebate(o, sections[i], prev, storyPrompt);
      var p := RunSections(DebateStep(o, storyPrompt), sections[i..], prev);
      var t := DebateTrace(o, sections[i..], prev, storyPrompt);
      if Produced(d.result) then
        var t' := DebateTrace(o, sections[i + 1..], prev + [d.result.text], storyPrompt);
        && p == RunSections(DebateStep(o, storyPrompt), sections[i + 1..], prev + [d.result.text])
        && t == Trace(Records(d.record) + t'.records, d.calls + t'.calls)
      else
        && p == Progress(prev, d.result.Raised?)
        && t == Trace(Records(d.record), d.calls)
  {
    var rest := sections[i..];
    assert rest[0] == sections[i] && rest[1..] == sections[i + 1..];
    assert DebateStep(o, storyPrompt)(sections[i], prev) == SectionDebate(o, sections[i], prev, storyPrompt).result;
  }

  /** At most one record per section the loop attempted: the finished ones
      and, if it stopped early, the one that stopped it. */
  lemma {:induction false} DebateTraceRecords(o: Oracles, sections: seq<SectionInfo>, prev: seq<string>, storyPrompt: string)
    ensures var done := |RunSections(DebateStep(o, storyPrompt), sections, prev).finals| - |prev|;
      |DebateTrace(o, sections, prev, storyPrompt).records| <= if done < |sections| then done + 1 else done
    decreases |sections|
  {
    if sections != [] {
      var d := SectionDebate(o, sections[0], prev, storyPrompt);
      assert DebateStep(o, storyPrompt)(sections[0], prev) == d.result;
      if Produced(d.result) {
        DebateTraceRecords(o, sections[1..], prev + [d.result.text], storyPrompt);
      }
    }
  }

  /** How a whole run ends: the story text, no story (`None`), or an
      exception that escapes the generator. */
  datatype StoryOutcome = Story(text: string) | NoStory | Crashed

  datatype RunOutcome = RunOutcome(outcome: StoryOutcome, trace: Trace)

  const DefaultDebateTitle: string := "Generated Debate Story"

  /** `generate_complete_debate_story` for an already read prompt, as a value. */
  function DebateStoryOf(o: Oracles, storyPrompt: string): (r: RunOutcome)
    ensures storyPrompt == "" ==> r == RunOutcome(NoStory, Trace([], []))
    ensures storyPrompt != "" ==> r.trace.calls != [] && r.trace.calls[0] == OutlineCall(o, storyPrompt)
  {
    if storyPrompt == "" then RunOutcome(NoStory, Trace([], []))
    else
      var outline := OutlineOf(o, storyPrompt);
      if outline.None? || outline.value.FalsyOutline? then RunOutcome(NoStory, Trace([], [OutlineCall(o, storyPrompt)]))
      else
        var sections := outline.value.sections;
        var progress := RunSections(DebateStep(o, storyPrompt), sections, []);
        var trace := DebateTrace(o, sections, [], storyPrompt);
        var story := Assemble(outline.value.title, DefaultDebateTitle, Entries(sections, progress.finals));
        var outcome := if progress.raised then Crashed else if story.Some? then Story(story.value) else NoStory;
        RunOutcome(outcome, Trace(trace.records, [OutlineCall(o, storyPrompt)] + trace.calls))
  }

  /** A run crashes exactly when the debate of the section the loop stopped
      at raised; a story, when there is one, opens with the outline's title
      or "Generated Debate Story". */
  lemma DebateStoryEnds(o: Oracles, storyPrompt: string)
    ensures var run := DebateStoryOf(o, storyPrompt);
      var outline := OutlineOf(o, storyPrompt);
      run.outcome.Crashed?
      <==> (&& storyPrompt != ""
            && outline.Some? && outline.value.OutlineObject?
            && var p := RunSections(DebateStep(o, storyPrompt), outline.value.sections, []);
               |p.finals| < |outline.value.sections|
               && SectionDebate(o, outline.value.sections[|p.finals|], p.finals, storyPrompt).result == Raised)
    ensures var run := DebateStoryOf(o, storyPrompt);
      var outline := OutlineOf(o, storyPrompt);
      run.outcome.Story? ==> StartsWith(run.outcome.text, "# " + outline.value.title.GetOr(DefaultDebateTitle) + "\n\n")
  {
    var outline := OutlineOf(o, storyPrompt);
    if storyPrompt != "" && outline.Some? && outline.value.OutlineObject? {
      var step := DebateStep(o, storyPrompt);
      var sections := outline.value.sections;
      var p := RunSections(step, sections, []);
      var story := Assemble(outline.value.title, DefaultDebateTitle, Entries(sections, p.finals));
      assert DebateStoryOf(o, storyPrompt).outcome == if p.raised then Crashed else if story.Some? then Story(story.value) else NoStory;
      RunSectionsStop(step, sections, []);
      if |p.finals| < |sections| {
        assert step(sections[|p.finals|], p.finals) == SectionDebate(o, sections[|p.finals|], p.finals, storyPrompt).result;
      }
    }
  }

  /** Whatever a run does, the token counters stay balanced: the per-agent
      prompt tokens, completion tokens and calls add up to the global ones. */
  lemma DebateStoryBalanced(o: Oracles, storyPrompt: string, t: UsageTotals)
    requires Balanced(t)
    ensures Balanced(AddCalls(t, DebateStoryOf(o, storyPrompt).trace.calls))
  {
    var calls := DebateStoryOf(o, storyPrompt).trace.calls;
    var outline := OutlineOf(o, storyPrompt);
    if storyPrompt != "" && outline.Some? && outline.value.OutlineObject? {
      DebateTraceAgents(o, outline.value.sections, [], storyPrompt);
    }
    if storyPrompt != "" {
      assert KnownAgents([OutlineCall(o, storyPrompt)]);
      if outline.Some? && outline.value.OutlineObject? {
        KnownAgentsAppend([OutlineCall(o, storyPrompt)], DebateTrace(o, outline.value.sections, [], storyPrompt).calls);
      }
    }
    AddCallsBalanced(t, calls);
  }

  /** The generator object: its debate log and its token counters. */
  class StoryDebateGenerator {
    var debateLog: seq<DebateRecord>
    const tokenUsage: TokenUsage

    constructor ()
      ensures debateLog == [] && fresh(tokenUsage) && tokenUsage.Snapshot() == Initial()
    {
      debateLog := [];
      tokenUsage := new TokenUsage();
    }

    /** `_call_model`: ask the model, track the usage, return the text. */
    method CallModel(o: Oracles, prompt: Prompt, agent: string) returns (text: Option<string>)
      modifies tokenUsage
      ensures text == TextOf(o.model(prompt))
      ensures tokenUsage.Snapshot() == AddCall(old(tokenUsage.Snapshot()), agent, UsageOf(o.model(prompt)))
    {
      var reply := o.model(prompt);
      if reply.Failed? {
        return None;
      }
      if reply.usage.Some? {
        tokenUsage.Record(agent, reply.usage);
      }
      if reply.content.Some? && reply.content.value != "" {
        text := Some(Strip(reply.content.value));
      } else {
        text := None;
      }
    }

    method GenerateStoryOutline(o: Oracles, storyPrompt: string) returns (outline: Option<OutlineJson>)
      modifies tokenUsage
      ensures outline == OutlineOf(o, storyPrompt)
      ensures tokenUsage.Snapshot() == AddCall(old(tokenUsage.Snapshot()), OutlineAgent, OutlineCall(o, storyPrompt).usage)
    {
      var response := CallModel(o, OutlinePrompt(storyPrompt), OutlineAgent);
      if !Usable(response) {
        return None;
      }
      var outlineText := CleanJsonResponse(response.value);
      outline := o.decodeOutline(outlineText);
    }

    method AffirmativeWriter(o: Oracles, section: SectionInfo, previousSections: seq<string>, storyPrompt: string)
      returns (draft: Option<string>)
      modifies tokenUsage
      ensures draft == TextOf(AffirmativeReply(o, section, previousSections, storyPrompt))
      ensures tokenUsage.Snapshot()
           == AddCall(old(tokenUsage.Snapshot()), AffirmativeAgent, UsageOf(AffirmativeReply(o, section, previousSections, storyPrompt)))
    {
      var context := BuildContext(previousSections);
      draft := CallModel(o, AffirmativePrompt(storyPrompt, section, context), AffirmativeAgent);
    }

    method NegativeCritic(o: Oracles, section: SectionInfo, affirmativeDraft: string, previousSections: seq<string>, storyPrompt: string)
      returns (draft: Option<string>)
      modifies tokenUsage
      ensures draft == TextOf(NegativeReply(o, section, previousSections, storyPrompt, affirmativeDraft))
      ensures tokenUsage.Snapshot()
           == AddCall(old(tokenUsage.Snapshot()), NegativeAgent, UsageOf(NegativeReply(o, section, previousSections, storyPrompt, affirmativeDraft)))
    {
      var context := BuildContext(previousSections);
      draft := CallModel(o, NegativePrompt(storyPrompt, section, context, affirmativeDraft), NegativeAgent);
    }

    /** `judge_editor`: ask the judge, decode its reply and log the debate
        when the reply decodes (even to a falsy value). */
    method JudgeEditor(o: Oracles, section: SectionInfo, affirmativeDraft: string, negativeDraft: string)
      returns (decision: Option<JudgeJson>)
      modifies this, tokenUsage
      ensures decision == JudgeDecision(o, section, affirmativeDraft, negativeDraft)
      ensures debateLog == old(debateLog)
        + if decision.Some? then [DebateRecord(section.number, section.title, affirmativeDraft, negativeDraft, decision.value)] else []
      ensures tokenUsage.Snapshot()
           == AddCall(old(tokenUsage.Snapshot()), JudgeAgent, UsageOf(JudgeReply(o, section, affirmativeDraft, negativeDraft)))
    {
      var response := CallModel(o, JudgePrompt(section, affirmativeDraft, negativeDraft), JudgeAgent);
      if !Usable(response) {
        return None;
      }
      var judgeText := CleanJsonResponse(response.value);
      decision := o.decodeJudge(judgeText);
      if decision.Some? {
        debateLog := debateLog + [DebateRecord(section.number, section.title, affirmativeDraft, negativeDraft, decision.value)];
      }
    }

    /** `generate_section_with_debate`. */
    method GenerateSectionWithDebate(o: Oracles, section: SectionInfo, previousSections: seq<string>, storyPrompt: string)
      returns (r: SectionResult)
      modifies this, tokenUsage
      ensures var d := SectionDebate(o, section, previousSections, storyPrompt);
        && r == d.result
        && debateLog == old(debateLog) + Records(d.record)
        && tokenUsage.Snapshot() == AddCalls(old(tokenUsage.Snapshot()), d.calls)
    {
      ghost var d := SectionDebate(o, section, previousSections, storyPrompt);
      ghost var usage0 := tokenUsage.Snapshot();
      assert AddCalls(usage0, []) == usage0;
      var affirmativeDraft := AffirmativeWriter(o, section, previousSections, storyPrompt);
      AddCallsSnoc(usage0, [], d.calls[0]);
      assert [] + [d.calls[0]] == d.calls[..1];
      if !Usable(affirmativeDraft) {
        assert d.calls == d.calls[..1];
        return NoSection;
      }
      var negativeDraft := NegativeCritic(o, section, affirmativeDraft.value, previousSections, storyPrompt);
      AddCallsSnoc(usage0, d.calls[..1], d.calls[1]);
      assert d.calls[..1] + [d.calls[1]] == d.calls[..2];
      if !Usable(negativeDraft) {
        assert d.calls == d.calls[..2];
        return Section(affirmativeDraft.value);
      }
      var judgeDecision := JudgeEditor(o, section, affirmativeDraft.value, negativeDraft.value);
      AddCallsSnoc(usage0, d.calls[..2], d.calls[2]);
      assert d.calls[..2] + [d.calls[2]] == d.calls;
      if judgeDecision.None? || !Truthy(judgeDecision.value) {
        return Section(affirmativeDraft.value);
      }
      match judgeDecision.value
      case JudgeObject(fields) =>
        if "preferred_version" in fields && "reasoning" in fields && "final_section" in fields {
          r := Section(fields["final_section"]);
        } else {
          r := Raised;
        }
      case _ =>
        r := Raised;
    }

    /** `generate_complete_debate_story`, for the prompt `read_story_prompt`
        returned: the outline, the section loop and the assembly. */
    method GenerateCompleteDebateStory(o: Oracles, storyPrompt: string) returns (story: StoryOutcome)
      modifies this, tokenUsage
      ensures var run := DebateStoryOf(o, storyPrompt);
        && story == run.outcome
        && debateLog == old(debateLog) + run.trace.records
        && tokenUsage.Snapshot() == AddCalls(old(tokenUsage.Snapshot()), run.trace.calls)
    {
      if storyPrompt == "" {
        return NoStory;
      }
      ghost var usageStart := tokenUsage.Snapshot();
      var outlineData := GenerateStoryOutline(o, storyPrompt);
      if outlineData.None? || outlineData.value.FalsyOutline? {
        assert AddCalls(tokenUsage.Snapshot(), []) == tokenUsage.Snapshot();
        return NoStory;
      }
      var sections := outlineData.value.sections;
      ghost var step := DebateStep(o, storyPrompt);
      ghost var whole := RunSections(step, sections, []);
      ghost var trace := DebateTrace(o, sections, [], storyPrompt);
      ghost var log0 := debateLog;
      ghost var usage0 := tokenUsage.Snapshot();
      assert sections[0..] == sections;

      var completeStory: seq<string> := [];
      var previousSections: seq<string> := [];
      var i := 0;
      while i < |sections|
        invariant 0 <= i <= |sections| && |previousSections| == i
        invariant completeStory == Entries(sections, previousSections)
        invariant RunSections(step, sections[i..], previousSections) == whole
        invariant debateLog + DebateTrace(o, sections[i..], previousSections, storyPrompt).records == log0 + trace.records
        invariant AddCalls(tokenUsage.Snapshot(), DebateTrace(o, sections[i..], previousSections, storyPrompt).calls)
               == AddCalls(usage0, trace.calls)
        decreases |sections| - i
      {
        ghost var log1 := debateLog;
        ghost var usage1 := tokenUsage.Snapshot();
        ghost var d := SectionDebate(o, sections[i], previousSections, storyPrompt);
        DebateUnfold(o, storyPrompt, sections, i, previousSections);
        var finalSection := GenerateSectionWithDebate(o, sections[i], previousSections, storyPrompt);
        if !Produced(finalSection) {
          assert AddCalls(tokenUsage.Snapshot(), []) == tokenUsage.Snapshot();
          assert debateLog + [] == debateLog;
          if finalSection.Raised? {
            return Crashed;
          }
          break;
        }
        ghost var later := DebateTrace(o, sections[i + 1..], previousSections + [finalSection.text], storyPrompt);
        ghost var log2 := debateLog;
        AppendAssoc(log1, Records(d.record), later.records);
        AddCallsAppend(usage1, d.calls, later.calls);
        EntriesSnoc(sections, previousSections, finalSection.text);
        completeStory := completeStory + [SectionEntry(sections[i].title, finalSection.text)];
        previousSections := previousSections + [finalSection.text];
        i := i + 1;
      }
      assert whole.finals == previousSections && !whole.raised;
      var fullStory := Assemble(outlineData.value.title, DefaultDebateTitle, completeStory);
      story := if fullStory.Some? then Story(fullStory.value) else NoStory;
      AddCallsAppend(usageStart, [OutlineCall(o, storyPrompt)], trace.calls);
      assert AddCalls(usageStart, [OutlineCall(o, storyPrompt)]) == usage0 by {
        assert AddCalls(usage0, []) == usage0;
      }
    }
  }
}
