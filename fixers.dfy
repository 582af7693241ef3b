/** What each of the rule's three fixers makes of a block's lines, as functions of
    the lines before the fix, and the collapse fold as the loop the rule runs. */
module Fixers {
  import opened Wrappers
  import opened JsStrings
  import opened Tokens

  // ---------------------------------------------------------------------------
  // emptyTokens

  /** The slots `emptyTokens` sets to `''`, in its order: every slot but the delimiter. */
  const EmptiedSlots: seq<Slot> :=
    [Start, PostDelimiter, Tag, Type, PostType, PostTag, Name, PostName, Description, End]

  lemma EmptiedSlotsSpareOnlyDelimiter(s: Slot)
    ensures s in EmptiedSlots <==> s != Delimiter
  {
    match s
    case Delimiter =>
    case _ =>
  }

  /** A line after `emptyTokens`: its delimiter and nothing else. */
  function Emptied(l: Line): (r: Line)
    ensures r.delimiter == l.delimiter
    ensures forall s :: s != Delimiter ==> Get(r, s) == ""
  {
    Line("", l.delimiter, "", "", "", "", "", "", "", "", "")
  }

  // ---------------------------------------------------------------------------
  // Single-line expansion

  /** The number of the three trailing-space slots in which `r` differs from `l`. */
  function ChangedPostSlots(l: Line, r: Line): nat {
    (if r.postName != l.postName then 1 else 0)
    + (if r.postType != l.postType then 1 else 0)
    + (if r.postTag != l.postTag then 1 else 0)
  }

  /** The leftover trailing space a one-line block without description carries:
      when the description is empty, the first non-empty one of `postName`,
      `postType`, `postTag` (in that order) is cleared, and only that one; when
      the description is non-empty nothing is cleared. */
  function StripLeftovers(l: Line): (r: Line)
    ensures r == l.(postName := r.postName, postType := r.postType, postTag := r.postTag)
    ensures r.postName in {l.postName, ""} && r.postType in {l.postType, ""} && r.postTag in {l.postTag, ""}
    ensures l.description != "" ==> r == l
    ensures l.description == "" ==>
      ChangedPostSlots(l, r) == if l.postName != "" || l.postType != "" || l.postTag != "" then 1 else 0
    ensures r.postType != l.postType ==> l.postName == ""
    ensures r.postTag != l.postTag ==> l.postName == "" && l.postType == ""
  {
    if l.description != "" then l
    else if l.postName != "" then l.(postName := "")
    else if l.postType != "" then l.(postType := "")
    else if l.postTag != "" then l.(postTag := "")
    else l
  }

  // The three lines a one-line block `l` becomes: the opening line keeps only its
  // delimiter; a content line carries the original tag, type, name and
  // post-delimiter space, the stripped leftovers and the description without its
  // trailing whitespace, under a `*` delimiter indented by `indent + ' '`; a
  // closing line holds only that indentation and the closing marker `*/`.
  function ExpandedLines(l: Line, indent: string): (r: seq<Line>)
    ensures |r| == 3
    ensures r[0].delimiter == l.delimiter && forall s :: s != Delimiter ==> Get(r[0], s) == ""
    ensures r[1].start == indent + " " && r[1].delimiter == "*"
      && r[1].postDelimiter == l.postDelimiter && r[1].end == ""
    ensures r[1].tag == l.tag && r[1].typ == l.typ && r[1].name == l.name
    ensures r[1].description == TrimEnd(l.description)
    ensures r[1].postName == StripLeftovers(l).postName
      && r[1].postType == StripLeftovers(l).postType
      && r[1].postTag == StripLeftovers(l).postTag
    ensures r[2].start == indent + " " && r[2].end == "*/"
      && forall s :: s != Start && s != End ==> Get(r[2], s) == ""
  {
    var kept := StripLeftovers(l);
    [Emptied(l),
     kept.(start := indent + " ", delimiter := "*", description := TrimEnd(l.description), end := ""),
     Line(start := indent + " ", delimiter := "", postDelimiter := "", tag := "", postTag := "",
          typ := "", postType := "", name := "", postName := "", description := "", end := "*/")]
  }

  /** The object literal the single-line fixer hands to `addLine` for the content line. */
  function ContentTokens(l: Line, indent: string): map<Slot, string> {
    var kept := StripLeftovers(l);
    map[Delimiter := "*", Description := TrimEnd(l.description), Name := l.name,
        PostDelimiter := l.postDelimiter, PostName := kept.postName, PostTag := kept.postTag,
        PostType := kept.postType, Start := indent + " ", Tag := l.tag, Type := l.typ]
  }

  /** The object literal the single-line fixer hands to `addLine` for the closing line. */
  function ClosingTokens(indent: string): map<Slot, string> {
    map[End := "*/", Start := indent + " "]
  }

  /** Seeding the two object literals gives the expansion's second and third lines. */
  lemma ExpansionSeeds(l: Line, indent: string)
    ensures SeedTokens(ContentTokens(l, indent)) == ExpandedLines(l, indent)[1]
    ensures SeedTokens(ClosingTokens(indent)) == ExpandedLines(l, indent)[2]
  {
  }

  // ---------------------------------------------------------------------------
  // Multi-line collapse

  /** One slot of every line, concatenated in order. */
  function Concat(s: seq<Line>, slot: Slot): string {
    if s == [] then "" else Concat(s[..|s| - 1], slot) + Get(s[|s| - 1], slot)
  }

  /** The four tests the fold makes of a line before taking one of its slots. */
  datatype Need = TypeGiven | TagTypeNameGiven | NameDescriptionGiven | TagGiven

  /** A line that passes the test: the named slots are all non-empty. */
  predicate Carries(l: Line, need: Need) {
    match need
    case TypeGiven => l.typ != ""
    case TagTypeNameGiven => l.tag != "" && l.typ != "" && l.name != ""
    case NameDescriptionGiven => l.name != "" && l.description != ""
    case TagGiven => l.tag != ""
  }

  /** The index of the last line carrying every slot in `need`, if there is one. */
  function LastCarrying(s: seq<Line>, need: Need): (r: Option<nat>)
    ensures r.Some? ==> r.value < |s| && Carries(s[r.value], need)
    ensures r.Some? ==> forall j :: r.value < j < |s| ==> !Carries(s[j], need)
    ensures r.None? ==> forall j :: 0 <= j < |s| ==> !Carries(s[j], need)
  {
    if s == [] then None
    else if Carries(s[|s| - 1], need) then Some(|s| - 1)
    else LastCarrying(s[..|s| - 1], need)
  }

  /** Slot `slot` of the last line carrying `need`, or `''` when no line does. */
  function FromLastCarrying(s: seq<Line>, need: Need, slot: Slot): string {
    match LastCarrying(s, need)
    case None => ""
    case Some(k) => Get(s[k], slot)
  }

  /** The `postTag` the collapse takes: that of the last tagged line, or a single
      space when that line's own is empty; `''` when no line is tagged. */
  function CollapsedPostTag(s: seq<Line>): string {
    match LastCarrying(s, TagGiven)
    case None => ""
    case Some(k) => if s[k].postTag != "" then s[k].postTag else " "
  }

  // The accumulator after folding the lines `s` into the seed
  // `{delimiter: '/**', postDelimiter: ' ', end: '*/'}`, before the final space.
  function Folded(s: seq<Line>): Line {
    Line(start := "", delimiter := "/**", postDelimiter := " ",
         tag := Concat(s, Tag), postTag := CollapsedPostTag(s),
         typ := FromLastCarrying(s, TypeGiven, Type),
         postType := FromLastCarrying(s, TagTypeNameGiven, PostType),
         name := Concat(s, Name),
         postName := FromLastCarrying(s, NameDescriptionGiven, PostName),
         description := Concat(s, Description), end := "*/")
  }

  /** The single line a multi-line block collapses to: the fold, plus one space
      after the description when the name or the description is non-empty. */
  function CollapsedLine(s: seq<Line>): Line {
    var f := Folded(s);
    if f.name != "" || f.description != "" then f.(description := f.description + " ") else f
  }

  /** Folding one more line into the accumulator, as one step of the `reduce`. */
  lemma FoldedStep(s: seq<Line>, l: Line)
    ensures Folded(s + [l]).typ == if l.typ != "" then l.typ else Folded(s).typ
    ensures Folded(s + [l]).postType
      == if l.tag != "" && l.typ != "" && l.name != "" then l.postType else Folded(s).postType
    ensures Folded(s + [l]).name == Folded(s).name + l.name
    ensures Folded(s + [l]).postName
      == if l.name != "" && l.description != "" then l.postName else Folded(s).postName
    ensures Folded(s + [l]).description == Folded(s).description + l.description
    ensures Folded(s + [l]).tag == Folded(s).tag + l.tag
    ensures Folded(s + [l]).postTag
      == if l.tag != "" then (if l.postTag != "" then l.postTag else " ") else Folded(s).postTag
  {
    var t := s + [l];
    assert t[..|t| - 1] == s;
  }

  /** The callback of the collapse fixer's `reduce`: folds line `l` into the
      accumulator `obj`, field by field; `isLast` is `idx === arr.length - 1`. */
  method FoldLine(obj: Line, l: Line, isLast: bool, ghost done: seq<Line>) returns (acc: Line)
    requires obj == Folded(done)
    ensures !isLast ==> acc == Folded(done + [l])
    ensures isLast ==> acc == CollapsedLine(done + [l])
  {
    ghost var next := Folded(done + [l]);
    FoldedStep(done, l);
    acc := obj;
    if l.typ != "" {
      acc := acc.(typ := l.typ);
    }
    if l.tag != "" && l.typ != "" && l.name != "" {
      acc := acc.(postType := l.postType);
    }
    if l.name != "" {
      acc := acc.(name := acc.name + l.name);
    }
    if l.name != "" && l.description != "" {
      acc := acc.(postName := l.postName);
    }
    acc := acc.(description := acc.description + l.description);
    assert acc.name == next.name && acc.description == next.description;
    if (acc.name != "" || acc.description != "") && isLast {
      acc := acc.(description := acc.description + " ");
    }
    acc := acc.(tag := acc.tag + l.tag);
    if l.tag != "" {
      acc := acc.(postTag := if l.postTag != "" then l.postTag else " ");
    }
    assert acc.typ == next.typ && acc.postType == next.postType && acc.postName == next.postName;
    assert acc.tag == next.tag && acc.postTag == next.postTag;
  }

  /** The collapse fixer's `reduce`: every line's tokens folded, in order, into one
      record seeded with the canonical delimiters. */
  method ReduceTokens(lines: seq<Line>) returns (obj: Line)
    ensures obj == CollapsedLine(lines)
  {
    obj := SeedTokens(map[Delimiter := "/**", Description := "", End := "*/",
                          PostDelimiter := " ", Tag := ""]);
    SlotsDetermineLine(obj, Folded([]));
    var idx := 0;
    while idx < |lines|
      invariant 0 <= idx <= |lines|
      invariant idx < |lines| ==> obj == Folded(lines[..idx])
      invariant idx == |lines| ==> obj == CollapsedLine(lines)
    {
      assert lines[..idx] + [lines[idx]] == lines[..idx + 1];
      obj := FoldLine(obj, lines[idx], idx == |lines| - 1, lines[..idx]);
      assert lines[..|lines|] == lines;
      idx := idx + 1;
    }
  }

  /** A slot that is empty on every line but line `k` concatenates to line `k`'s value. */
  lemma {:induction false} ConcatOfSoleCarrier(s: seq<Line>, slot: Slot, k: nat)
    requires k < |s|
    requires forall j :: 0 <= j < |s| && j != k ==> Get(s[j], slot) == ""
    ensures Concat(s, slot) == Get(s[k], slot)
  {
    var init, last := s[..|s| - 1], s[|s| - 1];
    assert Concat(s, slot) == Concat(init, slot) + Get(last, slot);
    if k < |s| - 1 {
      assert forall j :: 0 <= j < |init| && j != k ==> Get(init[j], slot) == "" by {
        forall j | 0 <= j < |init| && j != k ensures Get(init[j], slot) == "" {
          assert init[j] == s[j];
        }
      }
      ConcatOfSoleCarrier(init, slot, k);
      assert Get(last, slot) == "";
      assert init[k] == s[k];
    } else {
      assert forall j :: 0 <= j < |init| ==> Get(init[j], slot) == "" by {
        forall j | 0 <= j < |init| ensures Get(init[j], slot) == "" {
          assert init[j] == s[j];
        }
      }
      ConcatOfEmptySlot(init, slot);
    }
  }

  /** A slot that is empty on every line concatenates to the empty string. */
  lemma {:induction false} ConcatOfEmptySlot(s: seq<Line>, slot: Slot)
    requires forall j :: 0 <= j < |s| ==> Get(s[j], slot) == ""
    ensures Concat(s, slot) == ""
  {
    if s != [] {
      var init := s[..|s| - 1];
      assert forall j :: 0 <= j < |init| ==> Get(init[j], slot) == "" by {
        forall j | 0 <= j < |init| ensures Get(init[j], slot) == "" {
          assert init[j] == s[j];
        }
      }
      ConcatOfEmptySlot(init, slot);
    }
  }

  /** The collapsed line has the canonical delimiters and spacing, the tags and the
      names of all lines concatenated, and their descriptions concatenated with one
      trailing space exactly when the names or the descriptions are non-empty. */
  lemma CollapsedLineText(s: seq<Line>)
    ensures CollapsedLine(s).start == "" && CollapsedLine(s).delimiter == "/**"
    ensures CollapsedLine(s).postDelimiter == " " && CollapsedLine(s).end == "*/"
    ensures CollapsedLine(s).tag == Concat(s, Tag) && CollapsedLine(s).name == Concat(s, Name)
    ensures CollapsedLine(s).description == Concat(s, Description)
      + (if Concat(s, Name) != "" || Concat(s, Description) != "" then " " else "")
  {
  }

  /** The collapsed line's type is the last non-empty type of any line, or empty
      when no line has one. */
  lemma CollapsedType(s: seq<Line>)
    ensures (CollapsedLine(s).typ == "" && forall j :: 0 <= j < |s| ==> s[j].typ == "")
      || exists k :: 0 <= k < |s| && CollapsedLine(s).typ == s[k].typ && s[k].typ != ""
           && forall j :: k < j < |s| ==> s[j].typ == ""
  {
    match LastCarrying(s, TypeGiven)
    case None =>
    case Some(k) => assert s[k].typ != "";
  }

  /** The collapsed line's `postTag` is that of the last tagged line, or one space
      when that line's own is empty; it is empty when no line is tagged. */
  lemma CollapsedPostTagFromLastTag(s: seq<Line>)
    ensures (CollapsedLine(s).postTag == "" && forall j :: 0 <= j < |s| ==> s[j].tag == "")
      || exists k :: 0 <= k < |s| && s[k].tag != ""
           && CollapsedLine(s).postTag == (if s[k].postTag != "" then s[k].postTag else " ")
           && forall j :: k < j < |s| ==> s[j].tag == ""
  {
    assert CollapsedLine(s).postTag == CollapsedPostTag(s);
    match LastCarrying(s, TagGiven)
    case None =>
    case Some(k) => assert s[k].tag != "";
  }

  /** When at most line `k` carries a tag, the collapsed line's tag is that line's tag,
      so a block the rule collapses keeps its one tag intact. */
  lemma SoleTagSurvivesCollapse(s: seq<Line>, k: nat)
    requires k < |s|
    requires forall j :: 0 <= j < |s| && j != k ==> s[j].tag == ""
    ensures CollapsedLine(s).tag == s[k].tag
  {
    ConcatOfSoleCarrier(s, Tag, k);
  }

  /** When no line carries a tag, the collapsed line has no tag. */
  lemma NoTagAfterCollapse(s: seq<Line>)
    requires forall j :: 0 <= j < |s| ==> s[j].tag == ""
    ensures CollapsedLine(s).tag == ""
  {
    ConcatOfEmptySlot(s, Tag);
  }

  /** A block the rule collapses has at most one tag, and the collapsed line has the
      same tag names as the lines it came from: none stays none, one stays that one. */
  lemma CollapseKeepsTagNames(s: seq<Line>)
    requires |TagNames(s)| <= 1
    ensures TagNames([CollapsedLine(s)]) == TagNames(s)
  {
    var c := CollapsedLine(s);
    assert [c][..0] == [];
    if TagNames(s) == [] {
      NoTagNames(s);
      NoTagAfterCollapse(s);
    } else {
      SoleTagName(s);
      var k :| 0 <= k < |s| && s[k].tag != "" && Slice1(s[k].tag) == TagNames(s)[0]
        && forall j :: 0 <= j < |s| && j != k ==> s[j].tag == "";
      SoleTagSurvivesCollapse(s, k);
    }
  }

  // ---------------------------------------------------------------------------
  // Zero-line text

  /** The text of a line after its margin and delimiter. */
  function Content(l: Line): string {
    l.postDelimiter + l.tag + l.postTag + l.typ + l.postType + l.name + l.postName
    + l.description + l.end
  }

  /** The lines after text is moved off the opening line: line 0 keeps only its
      delimiter; a new line 1 carries all of the old line 0's tokens except that its
      margin and delimiter are those of the old line 1; every later line is the old
      line one place earlier. */
  function ZeroLineMoved(source: seq<Line>): (r: seq<Line>)
    requires |source| >= 2
    ensures |r| == |source| + 1
    ensures r[0].delimiter == source[0].delimiter && forall s :: s != Delimiter ==> Get(r[0], s) == ""
    ensures r[1].delimiter == source[1].delimiter && r[1].start == source[1].start
    ensures forall s :: s != Delimiter && s != Start ==> Get(r[1], s) == Get(source[0], s)
    ensures Content(r[1]) == Content(source[0]) && Content(r[0]) == ""
    ensures forall k :: 2 <= k < |r| ==> r[k] == source[k - 1]
  {
    var line := source[0];
    [Emptied(line), line.(delimiter := source[1].delimiter, start := source[1].start)] + source[1..]
  }
}
