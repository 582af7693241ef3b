/** The parsed block the rule's fixers change in place: its `source` lines are
    reassigned by `utils.addLine`, by `emptyTokens` (which writes into line 0's
    tokens) and by the collapse (which replaces them wholesale). */
module JsdocSource {
  import opened Tokens
  import opened Fixers
  import opened MultilineBlocks

  class Jsdoc {
    var source: seq<Line>

    /** The parser never produces a block without lines. */
    ghost predicate Valid()
      reads this
    {
      |source| >= 1
    }

    constructor (lines: seq<Line>)
      requires |lines| >= 1
      ensures Valid() && source == lines
    {
      source := lines;
    }

    /** `emptyTokens()`: every slot of line 0 but its delimiter becomes `''`, one
        slot at a time; the other lines are untouched. */
    method EmptyTokens()
      requires Valid()
      modifies this
      ensures Valid()
      ensures source == old(source)[0 := Emptied(old(source)[0])]
    {
      ghost var before := source[0];
      for k := 0 to |EmptiedSlots|
        invariant |source| == |old(source)| && source[1..] == old(source)[1..]
        invariant forall s :: Get(source[0], s) == if s in EmptiedSlots[..k] then "" else Get(before, s)
      {
        source := source[0 := Set(source[0], EmptiedSlots[k], "")];
      }
      forall s ensures Get(source[0], s) == Get(Emptied(before), s) {
        EmptiedSlotsSpareOnlyDelimiter(s);
        assert EmptiedSlots[..|EmptiedSlots|] == EmptiedSlots;
      }
      SlotsDetermineLine(source[0], Emptied(before));
    }

    /** `utils.addLine(index, tokens)`: the line is inserted at `index`, the lines
        from `index` on move one place down. The caller seeds the slots it does not
        give with `''` (`SeedTokens`). */
    method AddLine(index: nat, tokens: Line)
      requires index <= |source|
      modifies this
      ensures source == old(source)[..index] + [tokens] + old(source)[index..]
    {
      source := source[..index] + [tokens] + source[index..];
    }

    /** The single-line fixer: captures line 0's tokens, empties line 0, then adds
        the content line and the closing line after it. */
    method ExpandSingleLine(indent: string)
      requires |source| == 1
      modifies this
      ensures Valid() && source == ExpandedLines(old(source)[0], indent)
    {
      var tokens := source[0];
      EmptyTokens();
      assert source == [Emptied(tokens)];
      var content, closing := SeedTokens(ContentTokens(tokens, indent)), SeedTokens(ClosingTokens(indent));
      AddLine(1, content);
      assert source == [Emptied(tokens), content];
      AddLine(2, closing);
      assert source == [Emptied(tokens), content, closing];
      ExpansionSeeds(tokens, indent);
      var expected := ExpandedLines(tokens, indent);
      assert expected == [expected[0], expected[1], expected[2]];
    }

    /** The collapse fixer: the lines are replaced by the one line their tokens fold into. */
    method CollapseLines()
      requires Valid()
      modifies this
      ensures Valid() && source == [CollapsedLine(old(source))]
    {
      var line := ReduceTokens(source);
      source := [line];
    }

    /** The zero-line fixer: copies line 0's tokens, empties line 0, and inserts the
        copy as line 1 with the margin and delimiter of the line that followed. */
    method MoveZeroLineText()
      requires |source| >= 2
      modifies this
      ensures Valid() && source == ZeroLineMoved(old(source))
    {
      var line := source[0];
      EmptyTokens();
      var next := source[1];
      AddLine(1, line.(delimiter := next.delimiter, start := next.start));
    }

    /** Runs the fixer a report handed over. */
    method ApplyFix(fix: Fix, indent: string)
      requires FixApplies(fix, |source|)
      modifies this
      ensures Valid() && source == FixedSource(fix, old(source), indent)
    {
      match fix
      case SingleLineFix => ExpandSingleLine(indent);
      case MultilineFix => CollapseLines();
      case ZeroLineFix => MoveZeroLineText();
    }
  }
}
