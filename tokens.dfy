/** The tokenised form of a JSDoc block as the comment parser hands it to the rule:
    a sequence of lines, each a fixed record of string slots, together with the
    parser's helpers over that form (`seedTokens`, `hasATag`, `filterTags`) and the
    tag names it derives from the lines. */
module Tokens {
  import opened JsStrings

  /** The names of a line's token slots, in the order they appear on the line. */
  datatype Slot = Start | Delimiter | PostDelimiter | Tag | PostTag | Type | PostType
                | Name | PostName | Description | End

  /** One physical line of a block; every slot may be empty. Concatenating the
      slots in declaration order gives the line's text (see `Text`). The `type`
      slot is called `typ` because `type` is a Dafny keyword. */
  datatype Line = Line(start: string, delimiter: string, postDelimiter: string,
                       tag: string, postTag: string, typ: string, postType: string,
                       name: string, postName: string, description: string, end: string)

  function Get(l: Line, s: Slot): string {
    match s
    case Start => l.start
    case Delimiter => l.delimiter
    case PostDelimiter => l.postDelimiter
    case Tag => l.tag
    case PostTag => l.postTag
    case Type => l.typ
    case PostType => l.postType
    case Name => l.name
    case PostName => l.postName
    case Description => l.description
    case End => l.end
  }

  /** `tokens[s] = v`: slot `s` becomes `v` and every other slot keeps its value. */
  function Set(l: Line, s: Slot, v: string): (r: Line)
    ensures Get(r, s) == v
    ensures forall o :: o != s ==> Get(r, o) == Get(l, o)
  {
    match s
    case Start => l.(start := v)
    case Delimiter => l.(delimiter := v)
    case PostDelimiter => l.(postDelimiter := v)
    case Tag => l.(tag := v)
    case PostTag => l.(postTag := v)
    case Type => l.(typ := v)
    case PostType => l.(postType := v)
    case Name => l.(name := v)
    case PostName => l.(postName := v)
    case Description => l.(description := v)
    case End => l.(end := v)
  }

  /** Two lines with the same value in every slot are the same line. */
  lemma SlotsDetermineLine(a: Line, b: Line)
    requires forall s :: Get(a, s) == Get(b, s)
    ensures a == b
  {
    assert Get(a, Start) == Get(b, Start) && Get(a, Delimiter) == Get(b, Delimiter);
    assert Get(a, PostDelimiter) == Get(b, PostDelimiter) && Get(a, Tag) == Get(b, Tag);
    assert Get(a, PostTag) == Get(b, PostTag) && Get(a, Type) == Get(b, Type);
    assert Get(a, PostType) == Get(b, PostType) && Get(a, Name) == Get(b, Name);
    assert Get(a, PostName) == Get(b, PostName) && Get(a, Description) == Get(b, Description);
    assert Get(a, End) == Get(b, End);
  }

  /** The line's text: its slots concatenated in their fixed order. */
  function Text(l: Line): string {
    l.start + l.delimiter + l.postDelimiter + l.tag + l.postTag + l.typ + l.postType
    + l.name + l.postName + l.description + l.end
  }

  function Seed(over: map<Slot, string>, s: Slot): string {
    if s in over then over[s] else ""
  }

  /** `utils.seedTokens(over)`: a line whose slots are the given overrides and `''` elsewhere. */
  function SeedTokens(over: map<Slot, string>): (r: Line)
    ensures forall s :: Get(r, s) == if s in over then over[s] else ""
  {
    Line(Seed(over, Start), Seed(over, Delimiter), Seed(over, PostDelimiter), Seed(over, Tag),
         Seed(over, PostTag), Seed(over, Type), Seed(over, PostType), Seed(over, Name),
         Seed(over, PostName), Seed(over, Description), Seed(over, End))
  }

  /** `utils.hasATag(names)`: some tag of the block is named in `names`
      (`Array.prototype.some` over the tag list). */
  function HasATag(tags: seq<string>, names: seq<string>): (r: bool)
    ensures r <==> exists i :: 0 <= i < |tags| && tags[i] in names
  {
    if tags == [] then false
    else tags[0] in names || HasATag(tags[1..], names)
  }

  /** `utils.filterTags(keep)`: the block's tags that `keep` accepts, in order. */
  function FilterTags(tags: seq<string>, keep: string -> bool): (r: seq<string>)
    ensures |r| <= |tags|
    ensures forall x :: x in r ==> x in tags && keep(x)
    ensures r == [] <==> forall i :: 0 <= i < |tags| ==> !keep(tags[i])
  {
    if tags == [] then []
    else (if keep(tags[0]) then [tags[0]] else []) + FilterTags(tags[1..], keep)
  }

  /** The names of the tags the comment parser derives from the lines: one per line
      whose tag token is non-empty, with the leading `@` removed. */
  function TagNames(source: seq<Line>): seq<string> {
    if source == [] then []
    else
      var last := source[|source| - 1];
      TagNames(source[..|source| - 1]) + (if last.tag != "" then [Slice1(last.tag)] else [])
  }

  /** With no derived tag names, no line carries a tag. */
  lemma {:induction false} NoTagNames(source: seq<Line>)
    requires TagNames(source) == []
    ensures forall j :: 0 <= j < |source| ==> source[j].tag == ""
  {
    if source != [] {
      var init := source[..|source| - 1];
      NoTagNames(init);
      forall j | 0 <= j < |source| ensures source[j].tag == "" {
        if j < |init| {
          assert source[j] == init[j];
        }
      }
    }
  }

  /** With exactly one derived tag name, exactly one line carries a tag, and the name
      is that line's tag without its `@`. */
  lemma {:induction false} SoleTagName(source: seq<Line>)
    requires |TagNames(source)| == 1
    ensures exists k :: 0 <= k < |source| && source[k].tag != ""
                        && Slice1(source[k].tag) == TagNames(source)[0]
                        && forall j :: 0 <= j < |source| && j != k ==> source[j].tag == ""
  {
    var init, last := source[..|source| - 1], source[|source| - 1];
    var k: nat;
    if last.tag != "" {
      assert TagNames(source) == TagNames(init) + [Slice1(last.tag)];
      NoTagNames(init);
      k := |source| - 1;
    } else {
      assert TagNames(source) == TagNames(init);
      SoleTagName(init);
      k :| 0 <= k < |init| && init[k].tag != "" && Slice1(init[k].tag) == TagNames(init)[0]
        && forall j :: 0 <= j < |init| && j != k ==> init[j].tag == "";
      assert source[k] == init[k];
    }
    forall j | 0 <= j < |source| && j != k ensures source[j].tag == "" {
      if j < |init| {
        assert source[j] == init[j];
      }
    }
  }
}
