/**
 * The narrative context handed to every section prompt: a header followed by
 * one numbered block per previously finished section. Both generators build
 * it with the same `+=` loop (the affirmative writer, the negative critic and
 * `generate_story_section`).
 */
module Context {
  import opened Text

  const Header: string := "\n\nPrevious sections of the story:\n"

  /** The block for the section at 1-based position `i`. */
  function Block(i: nat, section: string): string {
    "\n--- Section " + NatToString(i) + " ---\n" + section + "\n"
  }

  /** The blocks for `sections`, numbered from `first` on, in list order. */
  function Blocks(sections: seq<string>, first: nat): string
    decreases |sections|
  {
    if sections == [] then "" else Block(first, sections[0]) + Blocks(sections[1..], first + 1)
  }

  /** The context for the given previous sections: empty when there are none,
      otherwise the header and the blocks numbered 1..n. */
  function ContextOf(previous: seq<string>): (r: string)
    ensures r == "" <==> previous == []
    ensures previous != [] ==> StartsWith(r, Header)
  {
    if previous == [] then "" else Header + Blocks(previous, 1)
  }

  lemma {:induction false} BlocksSnoc(sections: seq<string>, s: string, first: nat)
    ensures Blocks(sections + [s], first) == Blocks(sections, first) + Block(first + |sections|, s)
    decreases |sections|
  {
    if sections == [] {
      assert [] + [s] == [s];
    } else {
      assert (sections + [s])[1..] == sections[1..] + [s];
      BlocksSnoc(sections[1..], s, first + 1);
    }
  }

  /** Finishing one more section extends the context by exactly one block,
      numbered n + 1 (the header comes first when it is the first section). */
  lemma ContextSnoc(previous: seq<string>, s: string)
    ensures ContextOf(previous + [s])
         == (if previous == [] then Header else ContextOf(previous)) + Block(|previous| + 1, s)
  {
    BlocksSnoc(previous, s, 1);
    assert previous + [s] != [];
    if previous == [] {
      assert Blocks(previous, 1) == "";
      assert ContextOf(previous + [s]) == Header + ("" + Block(1, s));
    } else {
      assert ContextOf(previous + [s]) == Header + (Blocks(previous, 1) + Block(|previous| + 1, s));
    }
  }

  /** The context loop of the source: start from "" and, when there are
      previous sections, append the header and then one block per section. */
  method BuildContext(previous: seq<string>) returns (context: string)
    ensures context == ContextOf(previous)
  {
    context := "";
    if previous != [] {
      context := Header;
      var i := 0;
      while i < |previous|
        invariant 0 <= i <= |previous|
        invariant context == Header + Blocks(previous[..i], 1)
      {
        BlocksSnoc(previous[..i], previous[i], 1);
        assert previous[..i + 1] == previous[..i] + [previous[i]];
        context := context + Block(i + 1, previous[i]);
        i := i + 1;
      }
      assert previous[..i] == previous;
    }
  }
}
