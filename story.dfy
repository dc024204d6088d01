/**
 * What both generators share once the outline is decoded: the outline
 * entries, the walk over them that stops at the first section without text,
 * and the assembly of the final story.
 */
module Story {
  import opened Wrappers
  import opened Text

  /** One entry of the outline's `outline` list (`section`, `title`, `summary`). */
  datatype SectionInfo = SectionInfo(number: int, title: string, summary: string)

  /** What `json.loads` produced for the outline reply: a falsy value such as
      `{}`, or an object with an optional `title` and the `outline` list. */
  datatype OutlineJson = FalsyOutline | OutlineObject(title: Option<string>, sections: seq<SectionInfo>)

  /** What producing one section gave back: a text (possibly ""), `None`, or
      an exception that nothing catches. */
  datatype SectionResult = Section(text: string) | NoSection | Raised

  /** Python truthiness of the returned section: a non-empty text. */
  predicate Produced(r: SectionResult) {
    r.Section? && r.text != ""
  }

  /** The entry `complete_story` receives for a finished section. */
  function SectionEntry(title: string, text: string): string {
    "## " + title + "\n\n" + text
  }

  /** The entries for the first |finals| outline sections and their texts. */
  function Entries(sections: seq<SectionInfo>, finals: seq<string>): (r: seq<string>)
    requires |finals| <= |sections|
    ensures |r| == |finals|
    ensures forall k :: 0 <= k < |r| ==> r[k] == SectionEntry(sections[k].title, finals[k])
  {
    seq(|finals|, k requires 0 <= k < |finals| => SectionEntry(sections[k].title, finals[k]))
  }

  /** Finishing one more section appends exactly its entry. */
  lemma EntriesSnoc(sections: seq<SectionInfo>, finals: seq<string>, text: string)
    requires |finals| < |sections|
    ensures Entries(sections, finals + [text]) == Entries(sections, finals) + [SectionEntry(sections[|finals|].title, text)]
  {
    var a := Entries(sections, finals + [text]);
    var b := Entries(sections, finals) + [SectionEntry(sections[|finals|].title, text)];
    forall k | 0 <= k < |a|
      ensures a[k] == b[k]
    {
      assert (finals + [text])[k] == if k < |finals| then finals[k] else text;
    }
  }

  /** The full story: "# title", a blank line, then the entries separated by
      blank lines; `None` when no section was finished. */
  function Assemble(title: Option<string>, defaultTitle: string, entries: seq<string>): (r: Option<string>)
    ensures r.None? <==> entries == []
    ensures r.Some? ==> StartsWith(r.value, "# " + title.GetOr(defaultTitle) + "\n\n")
    ensures |entries| == 1 ==> r == Some("# " + title.GetOr(defaultTitle) + "\n\n" + entries[0])
  {
    if entries == [] then None
    else
      var head := "# " + title.GetOr(defaultTitle) + "\n\n";
      assert (head + Join("\n\n", entries))[..|head|] == head;
      Some(head + Join("\n\n", entries))
  }

  /** A story with one more finished section is the shorter story, a blank
      line and the new entry. */
  lemma AssembleSnoc(title: Option<string>, defaultTitle: string, entries: seq<string>, e: string)
    requires entries != []
    ensures Assemble(title, defaultTitle, entries + [e]) == Some(Assemble(title, defaultTitle, entries).value + "\n\n" + e)
  {
    JoinSnoc("\n\n", entries, e);
    var head := "# " + title.GetOr(defaultTitle) + "\n\n";
    var joined := Join("\n\n", entries);
    assert head + (joined + "\n\n" + e) == (head + joined) + "\n\n" + e;
  }

  /** How far the walk over the outline got: the list of finished texts
      (`previous_sections`) and whether an exception ended it. */
  datatype Progress = Progress(finals: seq<string>, raised: bool)

  /** The section loop: produce each outline section in order from the texts
      finished so far, keep going while the result is a non-empty text, and
      stop at the first one that is not. The finished texts extend the
      starting list, by at most one per outline section, and every text
      added is non-empty. */
  function RunSections(step: (SectionInfo, seq<string>) -> SectionResult, sections: seq<SectionInfo>, prev: seq<string>): (p: Progress)
    ensures |prev| <= |p.finals| <= |prev| + |sections|
    ensures p.finals[..|prev|] == prev
    ensures forall k :: |prev| <= k < |p.finals| ==> p.finals[k] != ""
    decreases |sections|
  {
    if sections == [] then Progress(prev, false)
    else
      var r := step(sections[0], prev);
      if Produced(r) then
        var p := RunSections(step, sections[1..], prev + [r.text]);
        assert p.finals[..|prev|] == p.finals[..|prev| + 1][..|prev|];
        p
      else Progress(prev, r.Raised?)
  }

  /** Section k is produced from exactly the texts of the sections before it,
      in order, and the text it gets is the k-th finished text. */
  lemma {:induction false} RunSectionsContext(step: (SectionInfo, seq<string>) -> SectionResult, sections: seq<SectionInfo>, prev: seq<string>, k: nat)
    requires |prev| <= k < |RunSections(step, sections, prev).finals|
    ensures var p := RunSections(step, sections, prev);
      step(sections[k - |prev|], p.finals[..k]) == Section(p.finals[k])
    decreases |sections|
  {
    var r := step(sections[0], prev);
    var p := RunSections(step, sections, prev);
    assert Produced(r);
    if k == |prev| {
      assert p.finals[..k] == prev;
    } else {
      RunSectionsContext(step, sections[1..], prev + [r.text], k);
    }
  }

  /** The walk stops at the first section whose result is not a non-empty
      text; an exception there is what marks the run as raised, and a walk
      that reaches the end of the outline raised nothing. */
  lemma {:induction false} RunSectionsStop(step: (SectionInfo, seq<string>) -> SectionResult, sections: seq<SectionInfo>, prev: seq<string>)
    ensures var p := RunSections(step, sections, prev);
      var n := |p.finals| - |prev|;
      && (n < |sections| ==> !Produced(step(sections[n], p.finals)) && (p.raised <==> step(sections[n], p.finals).Raised?))
      && (n == |sections| ==> !p.raised)
    decreases |sections|
  {
    if sections != [] {
      var r := step(sections[0], prev);
      if Produced(r) {
        RunSectionsStop(step, sections[1..], prev + [r.text]);
      }
    }
  }
}
