/** The rule's configuration: the options object with every absent option replaced
    by its default. */
module RuleConfig {
  import opened Wrappers

  /** `minimumLengthForMultiline`: an integer, or positive infinity by default. */
  datatype Limit = Unbounded | AtLeast(n: int)

  /** `length >= minimumLengthForMultiline`; no finite length reaches infinity. */
  predicate Reaches(length: nat, limit: Limit) {
    limit.AtLeast? && length >= limit.n
  }

  datatype Config = Config(
    allowMultipleTags: bool,
    noZeroLineText: bool,
    noSingleLineBlocks: bool,
    singleLineTags: seq<string>,
    noMultilineBlocks: bool,
    minimumLengthForMultiline: Limit,
    multilineTags: seq<string>)

  /** The options as the user wrote them; `None` is an option left out. The string
      form `'*'` of `multilineTags` is given as the list `["*"]`. */
  datatype Options = Options(
    allowMultipleTags: Option<bool>,
    noZeroLineText: Option<bool>,
    noSingleLineBlocks: Option<bool>,
    singleLineTags: Option<seq<string>>,
    noMultilineBlocks: Option<bool>,
    minimumLengthForMultiline: Option<int>,
    multilineTags: Option<seq<string>>)

  /** `context.options[0] || {}` when no options object is given. */
  const NoOptions: Options := Options(None, None, None, None, None, None, None)

  /** Destructuring with defaults: each option given is taken as is, each one left
      out falls back to its default. */
  function WithDefaults(o: Options): (c: Config)
    ensures o == NoOptions ==>
      c == Config(true, true, false, ["lends", "type"], false, Unbounded, ["*"])
    ensures o.allowMultipleTags.Some? ==> c.allowMultipleTags == o.allowMultipleTags.value
    ensures o.noZeroLineText.Some? ==> c.noZeroLineText == o.noZeroLineText.value
    ensures o.noSingleLineBlocks.Some? ==> c.noSingleLineBlocks == o.noSingleLineBlocks.value
    ensures o.singleLineTags.Some? ==> c.singleLineTags == o.singleLineTags.value
    ensures o.noMultilineBlocks.Some? ==> c.noMultilineBlocks == o.noMultilineBlocks.value
    ensures o.minimumLengthForMultiline.Some? ==>
      c.minimumLengthForMultiline == AtLeast(o.minimumLengthForMultiline.value)
    ensures o.multilineTags.Some? ==> c.multilineTags == o.multilineTags.value
    ensures o.allowMultipleTags.None? ==> c.allowMultipleTags
    ensures o.noZeroLineText.None? ==> c.noZeroLineText
    ensures o.noSingleLineBlocks.None? ==> !c.noSingleLineBlocks
    ensures o.singleLineTags.None? ==> c.singleLineTags == ["lends", "type"]
    ensures o.noMultilineBlocks.None? ==> !c.noMultilineBlocks
    ensures o.minimumLengthForMultiline.None? ==> c.minimumLengthForMultiline == Unbounded
    ensures o.multilineTags.None? ==> c.multilineTags == ["*"]
  {
    Config(
      o.allowMultipleTags.GetOr(true),
      o.noZeroLineText.GetOr(true),
      o.noSingleLineBlocks.GetOr(false),
      o.singleLineTags.GetOr(["lends", "type"]),
      o.noMultilineBlocks.GetOr(false),
      match o.minimumLengthForMultiline
      case None => Unbounded
      case Some(n) => AtLeast(n),
      o.multilineTags.GetOr(["*"]))
  }
}
