/** Worked examples: concrete blocks and what the rule makes of them. */
module Examples {
  import opened Wrappers
  import opened Tokens
  import opened RuleConfig
  import opened Fixers
  import opened MultilineBlocks

  // The one-line block `/** @param x */` as the parser tokenises it.
  const ParamLine := Line("", "/**", " ", "@param", " ", "", "", "x", " ", "", "*/")

  /** `noSingleLineBlocks` with only `lends` allowed on one line. */
  const SingleLineOff := WithDefaults(Options(None, None, Some(true), Some(["lends"]), None, None, None))

  /** With `noSingleLineBlocks` and only `lends` exempt, a one-line `@param` block is
      reported with the expansion fixer ... */
  lemma SingleLineReportExample(l: Line)
    requires l == ParamLine
    ensures Evaluate(SingleLineOff, [l], ["param"], "") == Report(SingleLineProhibited, Some(SingleLineFix), true)
  {
    SingleLineVerdict(SingleLineOff, [l], ["param"], "");
  }

  /** ... which makes it three lines, dropping the space after the name. */
  lemma SingleLineExpansionExample(l: Line)
    requires l == ParamLine
    ensures var r := ExpandedLines(l, "");
      Text(r[0]) == "/**" && Text(r[1]) == " * @param x" && Text(r[2]) == " */"
  {
    var r := ExpandedLines(l, "");
    assert r[0] == Line("", "/**", "", "", "", "", "", "", "", "", "");
    assert r[1] == Line(" ", "*", " ", "@param", " ", "", "", "x", "", "", "");
    assert r[2] == Line(" ", "", "", "", "", "", "", "", "", "", "*/");
  }

  /** The same configuration accepts a one-line `@lends` block. */
  lemma SingleLineExceptionExample(l: Line)
    requires l == ParamLine.(tag := "@lends")
    ensures Evaluate(SingleLineOff, [l], ["lends"], "") == NoReport
  {
    SingleLineVerdict(SingleLineOff, [l], ["lends"], "");
  }

  const LendsBlock := [
    Line("", "/**", "", "", "", "", "", "", "", "", ""),
    Line(" ", "*", " ", "@lends", " ", "", "", "", "", "Fixable.", ""),
    Line(" ", "", "", "", "", "", "", "", "", "", "*/")]

  /** `noMultilineBlocks` with no `multilineTags`. */
  const MultilineOff := WithDefaults(Options(None, None, None, None, Some(true), None, Some([])))

  /** With `noMultilineBlocks` and no `multilineTags`, a three-line block whose one
      tag carries the text is reported with the collapse fixer ... */
  lemma CollapseExample(s: seq<Line>)
    requires s == LendsBlock
    ensures Evaluate(MultilineOff, s, ["lends"], "") == Report(MultilineProhibited, Some(MultilineFix), false)
  {
    assert !MultilineExempt(MultilineOff, ["lends"], "");
    CollapseVerdict(MultilineOff, s, ["lends"], "");
  }

  /** ... which makes it one line with a space before the closing marker. */
  lemma CollapsedTextExample(s: seq<Line>)
    requires s == LendsBlock
    ensures Text(CollapsedLine(s)) == "/** @lends Fixable. */"
  {
    LendsConcatenations(s);
    LendsPicks(s);
    LendsLineText(CollapsedLine(s));
  }

  lemma LendsConcatenations(s: seq<Line>)
    requires |s| == 3 && s[0] == LendsBlock[0] && s[1] == LendsBlock[1] && s[2] == LendsBlock[2]
    ensures var c := CollapsedLine(s);
      c.start == "" && c.delimiter == "/**" && c.postDelimiter == " " && c.end == "*/"
      && c.tag == "@lends" && c.name == "" && c.description == "Fixable. "
  {
    ConcatOfSoleCarrier(s, Tag, 1);
    ConcatOfSoleCarrier(s, Description, 1);
    ConcatOfEmptySlot(s, Name);
    CollapsedLineText(s);
  }

  lemma LendsPicks(s: seq<Line>)
    requires |s| == 3 && s[0] == LendsBlock[0] && s[1] == LendsBlock[1] && s[2] == LendsBlock[2]
    ensures var c := CollapsedLine(s);
      c.typ == "" && c.postType == "" && c.postName == "" && c.postTag == " "
  {
    assert forall j :: 0 <= j < |s| ==> s[j].typ == "" && s[j].name == "";
    assert LastCarrying(s, TypeGiven).None?;
    assert LastCarrying(s, TagTypeNameGiven).None?;
    assert LastCarrying(s, NameDescriptionGiven).None?;
    assert LastCarrying(s, TagGiven) == Some(1);
  }

  lemma LendsLineText(c: Line)
    requires c.start == "" && c.delimiter == "/**" && c.postDelimiter == " " && c.tag == "@lends"
    requires c.postTag == " " && c.typ == "" && c.postType == "" && c.name == "" && c.postName == ""
    requires c.description == "Fixable. " && c.end == "*/"
    ensures Text(c) == "/** @lends Fixable. */"
  {
  }

  const TypeBlock := [
    Line("", "/**", "", "", "", "", "", "", "", "", ""),
    Line(" ", "*", " ", "@type", " ", "{string}", "", "", "", "", ""),
    Line(" ", "", "", "", "", "", "", "", "", "", "*/")]

  /** A block whose one line holds only a tag and a type collapses with no space
      before the closing marker: the fold adds that space only after a name or a
      description, and takes `postType` only from a line that also has a name. */
  lemma TypeOnlyCollapseExample(s: seq<Line>)
    requires s == TypeBlock
    ensures Text(CollapsedLine(s)) == "/** @type {string}*/"
  {
    TypeConcatenations(s);
    TypePicks(s);
    TypeLineText(CollapsedLine(s));
  }

  lemma TypeConcatenations(s: seq<Line>)
    requires |s| == 3 && s[0] == TypeBlock[0] && s[1] == TypeBlock[1] && s[2] == TypeBlock[2]
    ensures var c := CollapsedLine(s);
      c.start == "" && c.delimiter == "/**" && c.postDelimiter == " " && c.end == "*/"
      && c.tag == "@type" && c.name == "" && c.description == ""
  {
    ConcatOfSoleCarrier(s, Tag, 1);
    ConcatOfEmptySlot(s, Description);
    ConcatOfEmptySlot(s, Name);
    CollapsedLineText(s);
  }

  lemma TypePicks(s: seq<Line>)
    requires |s| == 3 && s[0] == TypeBlock[0] && s[1] == TypeBlock[1] && s[2] == TypeBlock[2]
    ensures var c := CollapsedLine(s);
      c.typ == "{string}" && c.postType == "" && c.postName == "" && c.postTag == " "
  {
    assert forall j :: 0 <= j < |s| ==> s[j].name == "";
    assert LastCarrying(s, TypeGiven) == Some(1);
    assert LastCarrying(s, TagTypeNameGiven).None?;
    assert LastCarrying(s, NameDescriptionGiven).None?;
    assert LastCarrying(s, TagGiven) == Some(1);
  }

  lemma TypeLineText(c: Line)
    requires c.start == "" && c.delimiter == "/**" && c.postDelimiter == " " && c.tag == "@type"
    requires c.postTag == " " && c.typ == "{string}" && c.postType == "" && c.name == "" && c.postName == ""
    requires c.description == "" && c.end == "*/"
    ensures Text(c) == "/** @type {string}*/"
  {
  }

  /** Listing the block's tag in `multilineTags` exempts it. */
  lemma MultilineTagExemptionExample(s: seq<Line>)
    requires s == LendsBlock
    ensures Evaluate(MultilineOff.(multilineTags := ["lends"]), s, ["lends"], "") == NoReport
  {
    assert ["lends"][0] in ["lends"];
    MultilineExemptionVerdict(MultilineOff.(multilineTags := ["lends"]), s, ["lends"], "");
  }

  /** With `noSingleLineBlocks` as well and no single-line tags, the collapse is
      irreconcilable and is reported without a fixer. */
  lemma IrreconcilableExample(s: seq<Line>)
    requires s == LendsBlock
    ensures Evaluate(MultilineOff.(noSingleLineBlocks := true, singleLineTags := []), s, ["lends"], "")
      == Report(MultilineIrreconcilable, None, false)
  {
    var cfg := MultilineOff.(noSingleLineBlocks := true, singleLineTags := []);
    assert !MultilineExempt(cfg, ["lends"], "");
    IrreconcilableVerdict(cfg, s, ["lends"], "");
  }

  const ZeroLineBlock := [
    Line("", "/**", " ", "", "", "", "", "", "", "Desc", ""),
    Line(" ", "*", " ", "@param", " ", "", "", "x", "", "", ""),
    Line(" ", "", "", "", "", "", "", "", "", "", "*/")]

  /** Text on the opening line is reported by default ... */
  lemma ZeroLineExample(s: seq<Line>)
    requires s == ZeroLineBlock
    ensures Evaluate(WithDefaults(NoOptions), s, ["param"], "Desc") == Report(ZeroLineText, Some(ZeroLineFix), false)
  {
    ZeroLineVerdict(WithDefaults(NoOptions), s, ["param"], "Desc");
  }

  /** ... and moves to a new second line that takes the margin and delimiter of the
      line after it. */
  lemma ZeroLineMovedExample(s: seq<Line>)
    requires s == ZeroLineBlock
    ensures var r := ZeroLineMoved(s);
      |r| == 4 && Text(r[0]) == "/**" && Text(r[1]) == " * Desc"
      && Text(r[2]) == " * @param x" && Text(r[3]) == " */"
  {
    var r := ZeroLineMoved(s);
    assert r[0] == Line("", "/**", "", "", "", "", "", "", "", "", "");
    assert r[1] == Line(" ", "*", " ", "", "", "", "", "", "", "Desc", "");
  }
}
