/** The `multiline-blocks` rule: given one tokenised JSDoc block, its tag names and
    block description (both derived by the comment parser) and the configuration,
    decide whether to stay silent, report a violation without a fix, or report one
    with a fix; the fixes themselves are in `Fixers` and `JsdocSource`. */
module MultilineBlocks {
  import opened Wrappers
  import opened JsStrings
  import opened Tokens
  import opened RuleConfig
  import opened Fixers

  /** `isInvalidSingleLine(tagName)`: whether a block whose only tag is `tagName`
      (empty for none) may not stand on one line. */
  function IsInvalidSingleLine(cfg: Config, tagName: string): (r: bool)
    ensures !cfg.noSingleLineBlocks ==> !r
    ensures cfg.noSingleLineBlocks && tagName == "" ==> r
    ensures cfg.noSingleLineBlocks && "*" in cfg.singleLineTags ==> (r <==> tagName == "")
    ensures tagName != "" ==>
      (r <==> cfg.noSingleLineBlocks && tagName !in cfg.singleLineTags && "*" !in cfg.singleLineTags)
  {
    cfg.noSingleLineBlocks
    && (tagName == "" || (tagName !in cfg.singleLineTags && "*" !in cfg.singleLineTags))
  }

  /** The violations the rule reports. */
  datatype Violation =
    | SingleLineProhibited
    | MultilineProhibited
    | MultilineIrreconcilable
    | MultilineMultipleTags
    | MultilineTaggedDescription
    | ZeroLineText

  /** The rule's three fixers. */
  datatype Fix = SingleLineFix | MultilineFix | ZeroLineFix

  /** A call of `utils.reportJSDoc`: the violation (whose message is `Message`), the
      fixer handed over, if any, and whether the fix replaces the whole block. */
  datatype Outcome = NoReport | Report(violation: Violation, fix: Option<Fix>, replaceWhole: bool)

  function Message(v: Violation): string {
    match v
    case SingleLineProhibited =>
      "Single line blocks are not permitted by your configuration."
    case MultilineProhibited =>
      "Multiline jsdoc blocks are prohibited by your configuration."
    case MultilineIrreconcilable =>
      "Multiline jsdoc blocks are prohibited by your configuration but fixing would result in a single "
      + "line block which you have prohibited with `noSingleLineBlocks`."
    case MultilineMultipleTags =>
      "Multiline jsdoc blocks are prohibited by your configuration but the block has multiple tags."
    case MultilineTaggedDescription =>
      "Multiline jsdoc blocks are prohibited by your configuration but the block has a description with a tag."
    case ZeroLineText =>
      "Should have no text on the \"0th\" line (after the `/**`)."
  }

  /** What each fixer needs of the block to run: the expansion works on a one-line
      block, the zero-line fix reads the second line. */
  predicate FixApplies(fix: Fix, lineCount: nat) {
    match fix
    case SingleLineFix => lineCount == 1
    case MultilineFix => lineCount >= 1
    case ZeroLineFix => lineCount >= 2
  }

  /** The lines a fixer leaves behind. */
  function FixedSource(fix: Fix, source: seq<Line>, indent: string): seq<Line>
    requires FixApplies(fix, |source|)
  {
    match fix
    case SingleLineFix => ExpandedLines(source[0], indent)
    case MultilineFix => [CollapsedLine(source)]
    case ZeroLineFix => ZeroLineMoved(source)
  }

  /** The `noMultilineBlocks` branch of the rule, for a block of more than one line. */
  function MultilineVerdict(cfg: Config, tags: seq<string>, description: string): Outcome {
    if |tags| > 0 && ("*" in cfg.multilineTags || HasATag(tags, cfg.multilineTags)) then NoReport
    else if Reaches(|description|, cfg.minimumLengthForMultiline) then NoReport
    else if cfg.noSingleLineBlocks
         && (|tags| == 0 || |FilterTags(tags, t => !IsInvalidSingleLine(cfg, t))| == 0) then
      Report(MultilineIrreconcilable, None, false)
    else if |tags| > 1 then
      if cfg.allowMultipleTags then NoReport else Report(MultilineMultipleTags, None, false)
    else if |tags| == 1 && Trim(description) != "" then
      if cfg.allowMultipleTags then NoReport else Report(MultilineTaggedDescription, None, false)
    else
      Report(MultilineProhibited, Some(MultilineFix), false)
  }

  /** The rule on one block. `source` is the tokenised block (the parser never hands
      over one without lines), `tags` the names of its tags and `description` its
      block description. The three checks run in order and the first that applies
      decides, so at most one report is made. A reported fixer can always run on the
      block it was reported for; only a one-line block is expanded, replacing the
      whole block; and text on the opening line is only reported for a multi-line
      block when multi-line blocks are allowed. */
  function Evaluate(cfg: Config, source: seq<Line>, tags: seq<string>, description: string): (r: Outcome)
    requires |source| >= 1
    ensures r.Report? && r.fix.Some? ==> FixApplies(r.fix.value, |source|)
    ensures r.Report? ==> (r.replaceWhole <==> r.violation == SingleLineProhibited)
    ensures r.Report? && r.violation == SingleLineProhibited ==> |source| == 1
    ensures r.Report? && r.violation == ZeroLineText ==> |source| >= 2 && !cfg.noMultilineBlocks
  {
    var line0 := source[0];
    if |source| == 1 then
      if !IsInvalidSingleLine(cfg, Slice1(line0.tag)) then NoReport
      else Report(SingleLineProhibited, Some(SingleLineFix), true)
    else if cfg.noMultilineBlocks then
      MultilineVerdict(cfg, tags, description)
    else if cfg.noZeroLineText && (line0.tag != "" || line0.description != "") then
      Report(ZeroLineText, Some(ZeroLineFix), false)
    else
      NoReport
  }

  // ---------------------------------------------------------------------------
  // The verdicts, one per branch

  /** A one-line block is reported exactly when its tag, without the `@`, may not
      stand on one line; the report offers the expansion and replaces the whole block.
      A tag listed in `singleLineTags` is therefore never reported. */
  lemma SingleLineVerdict(cfg: Config, source: seq<Line>, tags: seq<string>, description: string)
    requires |source| == 1
    ensures Evaluate(cfg, source, tags, description) == NoReport
      <==> !IsInvalidSingleLine(cfg, Slice1(source[0].tag))
    ensures Evaluate(cfg, source, tags, description) != NoReport ==>
      Evaluate(cfg, source, tags, description) == Report(SingleLineProhibited, Some(SingleLineFix), true)
    ensures |source[0].tag| > 1 && source[0].tag[1..] in cfg.singleLineTags ==>
      Evaluate(cfg, source, tags, description) == NoReport
  {
  }

  /** The two exemptions from `noMultilineBlocks`: the block has a tag and
      `multilineTags` is the wildcard or names one of its tags; or its description
      is at least `minimumLengthForMultiline` long. */
  predicate MultilineExempt(cfg: Config, tags: seq<string>, description: string) {
    (|tags| > 0 && ("*" in cfg.multilineTags || exists i :: 0 <= i < |tags| && tags[i] in cfg.multilineTags))
    || Reaches(|description|, cfg.minimumLengthForMultiline)
  }

  /** Collapsing would leave a one-line block that `noSingleLineBlocks` forbids:
      no tag at all, or none that may stand on one line. */
  predicate Irreconcilable(cfg: Config, tags: seq<string>) {
    cfg.noSingleLineBlocks && forall i :: 0 <= i < |tags| ==> IsInvalidSingleLine(cfg, tags[i])
  }

  lemma MultilineExemptionVerdict(cfg: Config, source: seq<Line>, tags: seq<string>, description: string)
    requires |source| >= 2 && cfg.noMultilineBlocks
    requires MultilineExempt(cfg, tags, description)
    ensures Evaluate(cfg, source, tags, description) == NoReport
  {
  }

  /** Not exempt and irreconcilable: reported, with no fixer. */
  lemma IrreconcilableVerdict(cfg: Config, source: seq<Line>, tags: seq<string>, description: string)
    requires |source| >= 2 && cfg.noMultilineBlocks
    requires !MultilineExempt(cfg, tags, description) && Irreconcilable(cfg, tags)
    ensures Evaluate(cfg, source, tags, description) == Report(MultilineIrreconcilable, None, false)
  {
  }

  /** Not exempt, reconcilable, and either several tags or one tag with a
      non-blank description: reported without a fixer exactly when
      `allowMultipleTags` is off. */
  lemma TagCountVerdict(cfg: Config, source: seq<Line>, tags: seq<string>, description: string)
    requires |source| >= 2 && cfg.noMultilineBlocks
    requires !MultilineExempt(cfg, tags, description) && !Irreconcilable(cfg, tags)
    requires |tags| > 1 || (|tags| == 1 && exists i :: 0 <= i < |description| && !IsJsWhitespace(description[i]))
    ensures Evaluate(cfg, source, tags, description) == NoReport <==> cfg.allowMultipleTags
    ensures !cfg.allowMultipleTags ==>
      Evaluate(cfg, source, tags, description)
        == Report(if |tags| > 1 then MultilineMultipleTags else MultilineTaggedDescription, None, false)
  {
  }

  /** Every other block under `noMultilineBlocks` is reported with the collapse fixer. */
  lemma CollapseVerdict(cfg: Config, source: seq<Line>, tags: seq<string>, description: string)
    requires |source| >= 2 && cfg.noMultilineBlocks
    requires !MultilineExempt(cfg, tags, description) && !Irreconcilable(cfg, tags)
    requires |tags| <= 1
    requires |tags| == 1 ==> forall i :: 0 <= i < |description| ==> IsJsWhitespace(description[i])
    ensures Evaluate(cfg, source, tags, description) == Report(MultilineProhibited, Some(MultilineFix), false)
  {
  }

  /** Without `noMultilineBlocks`, a multi-line block is reported exactly when
      `noZeroLineText` is on and its opening line has a tag or a description; the
      report offers to move that text. */
  lemma ZeroLineVerdict(cfg: Config, source: seq<Line>, tags: seq<string>, description: string)
    requires |source| >= 2 && !cfg.noMultilineBlocks
    ensures Evaluate(cfg, source, tags, description) != NoReport
      <==> cfg.noZeroLineText && (source[0].tag != "" || source[0].description != "")
    ensures Evaluate(cfg, source, tags, description) != NoReport ==>
      Evaluate(cfg, source, tags, description) == Report(ZeroLineText, Some(ZeroLineFix), false)
  {
  }

  // ---------------------------------------------------------------------------
  // After a fix, the same violation is not reported again

  /** The expanded block is never reported as a one-line block, and with multi-line
      blocks allowed it is not reported at all. */
  lemma ExpansionSettles(cfg: Config, line: Line, indent: string, tags: seq<string>, description: string)
    ensures var r := Evaluate(cfg, ExpandedLines(line, indent), tags, description);
      !(r.Report? && r.violation == SingleLineProhibited)
      && (!cfg.noMultilineBlocks ==> r == NoReport)
  {
  }

  /** The block a zero-line fix leaves behind has no text on its opening line. */
  lemma ZeroLineFixSettles(cfg: Config, source: seq<Line>, tags: seq<string>, description: string)
    requires |source| >= 2
    ensures var r := Evaluate(cfg, ZeroLineMoved(source), tags, description);
      !(r.Report? && r.violation == ZeroLineText)
      && (!cfg.noMultilineBlocks ==> r == NoReport)
  {
  }

  /** When the tag names are those the parser derives from the lines, the one line
      a collapse produces is accepted: the collapse is only offered when the block's
      single tag (if any) may stand on one line, and that tag survives the collapse. */
  lemma {:induction false} CollapseSettles(cfg: Config, source: seq<Line>, tags: seq<string>,
                                          description: string, newTags: seq<string>, newDescription: string)
    requires |source| >= 1 && tags == TagNames(source)
    requires Evaluate(cfg, source, tags, description) == Report(MultilineProhibited, Some(MultilineFix), false)
    ensures Evaluate(cfg, [CollapsedLine(source)], newTags, newDescription) == NoReport
  {
    if cfg.noSingleLineBlocks {
      assert |tags| == 1;
      SoleTagName(source);
      var k :| 0 <= k < |source| && source[k].tag != "" && Slice1(source[k].tag) == tags[0]
        && forall j :: 0 <= j < |source| && j != k ==> source[j].tag == "";
      SoleTagSurvivesCollapse(source, k);
      assert !IsInvalidSingleLine(cfg, tags[0]);
    }
  }
}
