# multiline-blocks, modelled in Dafny

This project models the `multiline-blocks` rule of eslint-plugin-jsdoc
(`src/rules/multilineBlocks.js`). The rule looks at one tokenised JSDoc block and
checks its configuration in this order:

- With `noSingleLineBlocks`, a one-line block is rejected unless it has a tag and
  that tag, or the wildcard `'*'`, is listed in `singleLineTags`.
- With `noMultilineBlocks`, a multi-line block is rejected unless it is exempt. It
  is exempt when it is tagged and `multilineTags` is `'*'` or lists one of its tags,
  or when its description is at least `minimumLengthForMultiline` characters.
  A non-exempt block is first reported without a fixer when collapsing it would
  give a single line that `noSingleLineBlocks` forbids, even when
  `allowMultipleTags` is on. Otherwise, a block with several tags, or with one tag
  and a non-blank description, is reported without a fixer, and only when
  `allowMultipleTags` is off. Every other non-exempt block is reported with the
  collapse fixer.
- With `noZeroLineText`, a tag or description on the opening `/**` line is
  rejected. This applies only to a block of more than one line, and only when
  `noMultilineBlocks` is off.

Each rejection is a report with a fixed message. Three of them come with a fixer:

- expanding a one-line block into three lines;
- collapsing a multi-line block into one line;
- moving opening-line text onto a new second line.

The model has these modules:

- `JsStrings`: the JavaScript string operations the rule uses (`trim`, `trimEnd`,
  `slice(1)`), with ECMAScript's whitespace set.
- `Tokens`: the parser's tokenised line (`Line`, one string per token slot), plus
  the helpers the rule calls on it: `seedTokens`, `hasATag` and `filterTags`. It
  also derives tag names from the lines.
- `RuleConfig`: the options object and its defaults.
- `Fixers`: what each fixer makes of the lines, as functions. The collapse's
  `reduce` is a loop (`ReduceTokens`, `FoldLine`) proved against those functions.
- `MultilineBlocks`: the rule itself (`Evaluate`), one lemma per verdict, and
  lemmas showing that a block a fixer produced is not reported again for the same
  violation.
- `JsdocSource`: the parsed block as an object whose `source` lines the fixers
  change in place (`emptyTokens`, `addLine`, the collapse's reassignment).
- `Examples`: concrete blocks and what the rule makes of them.

Three behaviours of the code are easy to miss:

- The zero-line fixer empties line 0 with `emptyTokens`, which clears `start` as
  well as the slots after the delimiter (src/rules/multilineBlocks.js:25, :200).
  See `MoveZeroLineText` and `ZeroLineMoved`.
- A collapsed block whose only content is a tag and a type gets no space before
  `*/`. The fold adds that space only after a name or a description (:164-166). It
  copies `postType` only from a line that also has a name (:153-155). So the
  three-line `@type {string}` block becomes `/** @type {string}*/`
  (`Examples.TypeOnlyCollapseExample`).
- The zero-line message reads
  `Should have no text on the "0th" line (after the `/**`).` (:205).

## Model

| member | source | states |
|---|---|---|
| JsStrings.TrimEnd | src/rules/multilineBlocks.js:75 | `trimEnd` returns a prefix of its input whose removed tail is all whitespace, and which is empty or ends in a non-whitespace character |
| JsStrings.TrimStart | src/rules/multilineBlocks.js:131 | the leading half of `trim`: a suffix of the input whose removed head is all whitespace, and which is empty or starts with a non-whitespace character |
| JsStrings.Trim | src/rules/multilineBlocks.js:131 | `description.trim()` is empty exactly when every character of the description is whitespace |
| JsStrings.Slice1 | src/rules/multilineBlocks.js:47 | `tag.slice(1)` is the tag without its first character (the `@`), and empty for an empty tag |
| Tokens.Set | src/rules/multilineBlocks.js:35-37 | `tokens[prop] = ''` changes the named slot and no other |
| Tokens.SlotsDetermineLine | src/rules/multilineBlocks.js:35-37 | a token record is determined by the values of its slots |
| Tokens.SeedTokens | src/rules/multilineBlocks.js:175-181 | `seedTokens(over)` gives each slot its override, or `''` when none is given |
| Tokens.HasATag | src/rules/multilineBlocks.js:102 | `hasATag(names)` holds exactly when some tag of the block is named in `names` |
| Tokens.FilterTags | src/rules/multilineBlocks.js:114-116 | `filterTags(keep)` returns only tags of the block that `keep` accepts, and is empty exactly when `keep` rejects every tag |
| Tokens.NoTagNames | src/rules/multilineBlocks.js:113 | `TagNames` is the parser's `jsdoc.tags` list: one name per tagged line, without the `@`. A block from which no tag name is derived has no tagged line |
| Tokens.SoleTagName | src/rules/multilineBlocks.js:131 | a block with exactly one tag name has exactly one tagged line, and the name is that line's tag without its `@` |
| RuleConfig.WithDefaults | src/rules/multilineBlocks.js:9-17 | a missing option takes the documented default (`true`, `true`, `false`, `['lends','type']`, `false`, positive infinity, `['*']`); a given option is used as is |
| Fixers.EmptiedSlotsSpareOnlyDelimiter | src/rules/multilineBlocks.js:24-34 | `emptyTokens` lists every slot except `delimiter` |
| Fixers.Emptied | src/rules/multilineBlocks.js:23-38 | after `emptyTokens`, a line keeps its delimiter and every other slot is empty |
| Fixers.StripLeftovers | src/rules/multilineBlocks.js:56-66 | with an empty description, exactly the first non-empty slot of `postName`, `postType`, `postTag` is cleared, and only when one is non-empty; with a description nothing changes |
| Fixers.ExpandedLines | src/rules/multilineBlocks.js:51-89 | a one-line block becomes three lines. The opening line keeps only its delimiter. The content line has a `*` delimiter indented by `indent + ' '`, the original tag, type, name and post-delimiter, the stripped leftovers and the right-trimmed description. The closing line holds only that indentation and `*/` |
| Fixers.ExpansionSeeds | src/rules/multilineBlocks.js:70-88 | the two `addLine` object literals (`ContentTokens`, `ClosingTokens`), once seeded, are the second and third lines of the expansion |
| Fixers.LastCarrying | src/rules/multilineBlocks.js:150-172 | finds the last line passing one of the fold's tests, or reports that no line passes it |
| Fixers.FoldedStep | src/rules/multilineBlocks.js:150-172 | folding one more line into the accumulator: `type` is replaced when non-empty; `postType` is taken only with tag, type and name; `name`, `description` and `tag` are appended; `postName` is taken only with name and description; `postTag` is taken from a tagged line (default one space) |
| Fixers.FoldLine | src/rules/multilineBlocks.js:149-174 | one call of the `reduce` callback turns the fold of the earlier lines into the fold including this line, and adds the trailing space on the last line |
| Fixers.ReduceTokens | src/rules/multilineBlocks.js:144-181 | the `reduce`, seeded with `{delimiter: '/**', postDelimiter: ' ', end: '*/'}`, yields the collapsed line of all the lines. `CollapsedLine` is the reference definition: the field-wise fold `Folded`, plus a trailing space after a non-empty name or description |
| Fixers.ConcatOfSoleCarrier | src/rules/multilineBlocks.js:157-169 | a slot filled on only one line concatenates to that line's value |
| Fixers.ConcatOfEmptySlot | src/rules/multilineBlocks.js:157-169 | a slot empty on every line concatenates to `''` |
| Fixers.CollapsedLineText | src/rules/multilineBlocks.js:141-182 | the collapsed line has start `''`, `/**`, one space and `*/`; its tag and name are the concatenations over all lines; its description is theirs plus one space exactly when the names or the descriptions are non-empty |
| Fixers.CollapsedType | src/rules/multilineBlocks.js:150-152 | the collapsed type is the last non-empty type of any line, or empty when no line has a type |
| Fixers.CollapsedPostTagFromLastTag | src/rules/multilineBlocks.js:169-172 | the collapsed `postTag` is that of the last tagged line, or one space when that line's own is empty; it is empty when no line is tagged |
| Fixers.SoleTagSurvivesCollapse | src/rules/multilineBlocks.js:168-169 | when only one line is tagged, the collapsed line carries exactly that tag |
| Fixers.NoTagAfterCollapse | src/rules/multilineBlocks.js:169 | when no line is tagged, the collapsed line has no tag |
| Fixers.CollapseKeepsTagNames | src/rules/multilineBlocks.js:168-169 | for a block with at most one tag, which is the only kind the rule collapses, the collapsed line has the same tag names as the original lines |
| Fixers.ZeroLineMoved | src/rules/multilineBlocks.js:198-203 | line 0 keeps only its delimiter. A new line 1 carries all of the old line 0's text, with the margin and delimiter of the old line 1. Later lines move down by one, and the block grows by one line |
| MultilineBlocks.IsInvalidSingleLine | src/rules/multilineBlocks.js:40-44 | a one-line tag is invalid only under `noSingleLineBlocks`. An empty tag is always invalid then. A named tag is invalid exactly when neither it nor `'*'` is in `singleLineTags` |
| MultilineBlocks.Evaluate | src/rules/multilineBlocks.js:46-208 | the rule on one block; its `noMultilineBlocks` branch (:99-192) is `MultilineVerdict`, and each violation's text is `Message` (:92, :118-137, :185, :205). There is at most one report per block. A reported fixer can run on that block. Only the single-line report replaces the whole block, and only for a one-line block. The zero-line report is made only for a multi-line block with multi-line blocks allowed |
| MultilineBlocks.SingleLineVerdict | src/rules/multilineBlocks.js:46-97 | a one-line block is reported exactly when its tag name is invalid on one line, with the expansion fixer and whole-block replacement; a tag in `singleLineTags` is never reported |
| MultilineBlocks.MultilineExemptionVerdict | src/rules/multilineBlocks.js:99-109 | a multi-line block is not reported under `noMultilineBlocks` when it is tagged and `multilineTags` is `'*'` or names one of its tags, or when its description reaches `minimumLengthForMultiline` |
| MultilineBlocks.IrreconcilableVerdict | src/rules/multilineBlocks.js:111-122 | a non-exempt block with no tag that may stand on one line, under `noSingleLineBlocks`, is reported without a fixer |
| MultilineBlocks.TagCountVerdict | src/rules/multilineBlocks.js:123-138 | a non-exempt block with several tags, or one tag and a non-blank description, is reported without a fixer exactly when `allowMultipleTags` is off, and with the matching message |
| MultilineBlocks.CollapseVerdict | src/rules/multilineBlocks.js:139-189 | every other non-exempt multi-line block is reported with the collapse fixer |
| MultilineBlocks.ZeroLineVerdict | src/rules/multilineBlocks.js:194-208 | without `noMultilineBlocks`, a multi-line block is reported exactly when `noZeroLineText` is on and its opening line has a tag or a description, with the move fixer |
| MultilineBlocks.ExpansionSettles | src/rules/multilineBlocks.js:68-88 | an expanded block is never reported as a one-line block, and with multi-line blocks allowed it is not reported at all |
| MultilineBlocks.ZeroLineFixSettles | src/rules/multilineBlocks.js:198-203 | after the move no opening-line text is reported, and with multi-line blocks allowed nothing is reported |
| MultilineBlocks.CollapseSettles | src/rules/multilineBlocks.js:111-182 | the single line a collapse produces is accepted by the same configuration, because the block's only tag survives and that tag may stand on one line |
| JsdocSource.Jsdoc.constructor | src/rules/multilineBlocks.js:19-21 | the block holds the lines it was parsed into, at least one |
| JsdocSource.Jsdoc.EmptyTokens | src/rules/multilineBlocks.js:23-38 | emptying one slot at a time leaves line 0 emptied except for its delimiter, and the other lines untouched |
| JsdocSource.Jsdoc.AddLine | src/rules/multilineBlocks.js:70-88 | `addLine(index, tokens)` inserts the line at `index` and shifts the rest down |
| JsdocSource.Jsdoc.ExpandSingleLine | src/rules/multilineBlocks.js:51-89 | the single-line fixer leaves exactly the three expanded lines |
| JsdocSource.Jsdoc.CollapseLines | src/rules/multilineBlocks.js:140-183 | the collapse fixer leaves exactly the one collapsed line |
| JsdocSource.Jsdoc.MoveZeroLineText | src/rules/multilineBlocks.js:198-203 | the zero-line fixer leaves exactly the moved lines |
| JsdocSource.Jsdoc.ApplyFix | src/rules/multilineBlocks.js:91-94 | the fixer handed to a report turns the block into the lines that fixer is specified to produce |
| Examples.SingleLineReportExample | src/rules/multilineBlocks.js:46-94 | `/** @param x */` with `noSingleLineBlocks` and `singleLineTags: ['lends']` is reported with the expansion fixer |
| Examples.SingleLineExpansionExample | src/rules/multilineBlocks.js:56-88 | that block expands to the lines `/**`, ` * @param x` and ` */`, dropping the space after the name |
| Examples.SingleLineExceptionExample | src/rules/multilineBlocks.js:40-49 | a one-line `@lends` block is accepted by the same configuration |
| Examples.CollapseExample | src/rules/multilineBlocks.js:139-188 | a three-line `@lends` block with `noMultilineBlocks` and no `multilineTags` is reported with the collapse fixer |
| Examples.CollapsedTextExample | src/rules/multilineBlocks.js:141-182 | that block collapses to `/** @lends Fixable. */` |
| Examples.LendsConcatenations | src/rules/multilineBlocks.js:156-169 | the delimiters, tag, name and description of that collapse |
| Examples.LendsPicks | src/rules/multilineBlocks.js:150-172 | the type, `postType`, `postName` and `postTag` of that collapse |
| Examples.LendsLineText | src/rules/multilineBlocks.js:141-182 | the text of the collapsed `@lends` line |
| Examples.TypeOnlyCollapseExample | src/rules/multilineBlocks.js:150-172 | a three-line block holding `@type {string}` collapses to `/** @type {string}*/` |
| Examples.TypeConcatenations | src/rules/multilineBlocks.js:156-169 | the delimiters, tag, name and description of that collapse |
| Examples.TypePicks | src/rules/multilineBlocks.js:150-172 | the type, `postType`, `postName` and `postTag` of that collapse |
| Examples.TypeLineText | src/rules/multilineBlocks.js:141-182 | the text of the collapsed `@type` line |
| Examples.MultilineTagExemptionExample | src/rules/multilineBlocks.js:100-105 | listing `lends` in `multilineTags` exempts the `@lends` block |
| Examples.IrreconcilableExample | src/rules/multilineBlocks.js:111-122 | adding `noSingleLineBlocks` with no single-line tags makes the `@lends` block irreconcilable, reported without a fixer |
| Examples.ZeroLineExample | src/rules/multilineBlocks.js:194-207 | by default, a block with `Desc` on its opening line is reported with the move fixer |
| Examples.ZeroLineMovedExample | src/rules/multilineBlocks.js:198-203 | the move turns it into `/**`, ` * Desc`, ` * @param x`, ` */` |

## Left out

- The `iterateJsdoc` wrapper is left out. It finds the blocks, parses them and
  hands over `jsdoc`, `indent` and `utils`. Here the tokenised lines, the tag names,
  the block description and the indent are inputs.
- The tokeniser and the block-description parser are left out. The lemma
  `CollapseSettles` assumes the tag names are those `TagNames` derives from the
  lines. Its `newTags` and `newDescription` arguments stand for whatever the parser
  makes of the collapsed line.
- The implementations of `utils.hasATag`, `utils.filterTags`, `utils.seedTokens`,
  `utils.addLine` and `utils.reportJSDoc` are not part of this model. They are
  modelled from their use in the rule.
- `AddLine`: does not renumber the lines' `number` fields or rebuild their
  `source` text, since lines are modelled by their tokens alone. For the same
  reason the collapsed line's `number: 1` and `source: ''` are left out.
- `reportJSDoc`'s location arguments (`null`) and ESLint's fix application are left
  out. `Outcome` records the message, the fixer and the whole-block flag.
- The rule's `meta` (docs, `fixable`, the options schema) is left out. Options are
  assumed to be valid against that schema; `multilineTags` given as the string `'*'`
  is taken as the list `['*']`, which `includes('*')` treats alike.
- `minimumLengthForMultiline`'s default `Number.POSITIVE_INFINITY` is the `Unbounded`
  limit. A length compares against an integer limit, with no floating point.
- Text length is counted in characters, not JavaScript's UTF-16 code units, so
  `description.length` differs for text outside the Basic Multilingual Plane.
- `TrimStart`, `TrimEnd`, `Trim`: ECMAScript whitespace is one fixed set of code
  points. It is not updated with Unicode versions.
