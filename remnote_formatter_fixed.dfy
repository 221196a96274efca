/**
 * The variant RemNote formatter. It differs from the canonical one in its
 * direction table (a disabled direction only applies to concept and basic
 * cards, basic cards may use `==`), in escaping (`#[[` becomes `#[ [`), in
 * writing list items and multiple-choice answers (the correct answer moved
 * first) below their card, in an optional extra-detail line, and in its
 * hierarchy: roots carry no prefix, children are nested recursively, one
 * level of four spaces per generation, and only groups whose parent is not
 * a root's front are written again under a bare heading.
 */
module FixedFormatter {
  import opened Wrappers
  import opened PyStr
  import opened Flashcards
  import opened Escaping
  import RemNoteFormatter

  function Fx(text: string): string {
    Escape(Fixed, text)
  }

  // ---------------------------------------------------------------------
  // One card

  /** The delimiter of a card laid out as `front <delimiter> back`; types without a row fall back to `>>`. */
  function Delimiter(c: Flashcard): string {
    match c.cardType
    case Concept =>
      if c.direction == Forward then ":>"
      else if c.direction == Backward then ":<"
      else if c.direction == Disabled then "=-"
      else "::"
    case Basic =>
      if c.direction == Backward then "<<"
      else if c.direction == Bidirectional then "<>"
      else if c.direction == Disabled then "=-"
      else if c.useAlternateSyntax then "=="
      else ">>"
    case Descriptor => if c.direction == Backward then ";<" else ";;"
    case _ => ">>"
  }

  /** Only concept and basic cards honour a disabled direction. */
  lemma DisabledOnlyConceptBasic(c: Flashcard)
    ensures Delimiter(c) == "=-" <==> c.direction == Disabled && (c.cardType == Concept || c.cardType == Basic)
  {
  }

  /** `==` is the alternative to a forward basic card's `>>`, and nothing else. */
  lemma AlternateOnlyForwardBasic(c: Flashcard)
    ensures Delimiter(c) == "==" <==> c.cardType == Basic && c.direction == Forward && c.useAlternateSyntax
  {
  }

  /** A descriptor is two-way unless it is backward: a forward descriptor is no longer `;>`. */
  lemma DescriptorTwoWays(c: Flashcard)
    requires c.cardType == Descriptor
    ensures Delimiter(c) == (if c.direction == Backward then ";<" else ";;")
    ensures c.direction == Forward ==> RemNoteFormatter.Delimiter(c.cardType, c.direction) == ";>" != Delimiter(c)
  {
  }

  /** Outside the rows that changed, both formatters pick the same delimiter. */
  lemma SameDelimiterElsewhere(c: Flashcard)
    requires c.direction != Disabled
    requires !(c.cardType == Basic && c.useAlternateSyntax)
    requires !(c.cardType == Descriptor && c.direction == Forward)
    ensures Delimiter(c) == RemNoteFormatter.Delimiter(c.cardType, c.direction)
  {
  }

  /** The items as indented, escaped lines, in order. */
  function ItemLines(items: seq<string>): seq<string> {
    if items == [] then [] else ItemLines(items[..|items| - 1]) + ["    " + Fx(items[|items| - 1])]
  }

  lemma ItemLinesByIndex(items: seq<string>)
    ensures |ItemLines(items)| == |items|
    ensures forall k :: 0 <= k < |items| ==> ItemLines(items)[k] == "    " + Fx(items[k])
  {
    ItemLinesIndented(items);
    IndentedByIndex(items, Fx);
  }

  /** Each text behind four spaces, shown by `show`. */
  function Indented(texts: seq<string>, show: string -> string): seq<string> {
    if texts == [] then [] else Indented(texts[..|texts| - 1], show) + ["    " + show(texts[|texts| - 1])]
  }

  lemma {:induction false} ItemLinesIndented(items: seq<string>)
    ensures ItemLines(items) == Indented(items, Fx)
  {
    if items != [] {
      ItemLinesIndented(items[..|items| - 1]);
    }
  }

  lemma {:induction false} IndentedByIndex(texts: seq<string>, show: string -> string)
    ensures |Indented(texts, show)| == |texts|
    ensures forall k :: 0 <= k < |texts| ==> Indented(texts, show)[k] == "    " + show(texts[k])
  {
    if texts != [] {
      var pre := texts[..|texts| - 1];
      IndentedByIndex(pre, show);
      assert forall k :: 0 <= k < |pre| ==> pre[k] == texts[k];
    }
  }

  /** The non-blank lines, each stripped and indented, in order. */
  function BodyLines(lines: seq<string>): seq<string> {
    if lines == [] then []
    else
      var t := Strip(lines[|lines| - 1]);
      BodyLines(lines[..|lines| - 1]) + if t != "" then ["    " + t] else []
  }

  /** Every body line is four spaces and a stripped, non-empty text; only blank lines are dropped. */
  lemma BodyLinesShape(lines: seq<string>)
    ensures |BodyLines(lines)| <= |lines|
    ensures |BodyLines(lines)| == |lines| <==> forall k :: 0 <= k < |lines| ==> !Blank(lines[k])
    ensures forall k :: 0 <= k < |BodyLines(lines)| ==>
              |BodyLines(lines)[k]| > 4 && BodyLines(lines)[k][..4] == "    " && Stripped(BodyLines(lines)[k][4..])
  {
    BodyLinesCount(lines);
    BodyLinesForm(lines);
  }

  lemma {:induction false} BodyLinesCount(lines: seq<string>)
    ensures |BodyLines(lines)| <= |lines|
    ensures |BodyLines(lines)| == |lines| <==> forall k :: 0 <= k < |lines| ==> !Blank(lines[k])
  {
    if lines != [] {
      var pre := lines[..|lines| - 1];
      var last := lines[|lines| - 1];
      BodyLinesCount(pre);
      StripEmptyIffBlank(last);
      assert forall k :: 0 <= k < |pre| ==> pre[k] == lines[k];
    }
  }

  lemma {:induction false} BodyLinesForm(lines: seq<string>)
    ensures forall k :: 0 <= k < |BodyLines(lines)| ==>
              |BodyLines(lines)[k]| > 4 && BodyLines(lines)[k][..4] == "    " && Stripped(BodyLines(lines)[k][4..])
  {
    if lines != [] {
      var pre := lines[..|lines| - 1];
      BodyLinesForm(pre);
      var t := Strip(lines[|lines| - 1]);
      if t != "" {
        assert ("    " + t)[4..] == t;
      }
    }
  }

  /** The back with every literal `\n` made a line break, split into lines. */
  function BackLines(back: string): seq<string> {
    SplitOn(Replace(back, "\\n", "\n"), '\n')
  }

  /**
   * `_format_multiline_concept`: in triple mode `front :::` and the back's
   * non-blank lines below it; otherwise `front ::` and the back on one
   * indented line, each literal `\n` opening a new indented line.
   */
  function MultilineLines(c: Flashcard): seq<string> {
    if c.useTripleDelimiter then [Fx(c.front) + " :::"] + BodyLines(BackLines(Fx(c.back)))
    else [Fx(c.front) + " ::", "    " + Replace(Fx(c.back), "\\n", "\n    ")]
  }

  /** `_format_list_answer` with items: `front >>1.` and one indented line per item. */
  function ListLines(c: Flashcard): seq<string> {
    [Fx(c.front) + " >>1."] + ItemLines(c.listItems)
  }

  /** Python can pop the correct answer: a negative index counts from the end, but no further back than the first item. */
  predicate ChoiceIndexOk(c: Flashcard) {
    c.cardType != MultipleChoice || |c.listItems| <= 1 || c.correctChoiceIndex >= -|c.listItems|
  }

  /** `choices.pop(i)` then `choices.insert(0, …)`, when `i` is neither 0 nor past the end. */
  function Reordered(items: seq<string>, i: int): seq<string>
    requires i >= -|items|
  {
    if i != 0 && i < |items| then
      var j := if i >= 0 then i else |items| + i;
      [items[j]] + items[..j] + items[j + 1..]
    else items
  }

  /** Moving one item to the front permutes the items. */
  lemma MoveFirst(items: seq<string>, j: nat)
    requires j < |items|
    ensures multiset([items[j]] + items[..j] + items[j + 1..]) == multiset(items)
  {
    assert items == items[..j] + [items[j]] + items[j + 1..];
  }

  /** The choices are a permutation of the items; the correct one comes first and the others keep their order. */
  lemma ReorderedIsPermutation(items: seq<string>, i: int)
    requires i >= -|items|
    ensures |Reordered(items, i)| == |items|
    ensures multiset(Reordered(items, i)) == multiset(items)
    ensures 0 < i < |items| ==> Reordered(items, i) == [items[i]] + items[..i] + items[i + 1..]
    ensures i < 0 && |items| + i >= 0 ==>
              Reordered(items, i) == [items[|items| + i]] + items[..|items| + i] + items[|items| + i + 1..]
    ensures i == 0 || i >= |items| ==> Reordered(items, i) == items
  {
    if i != 0 && i < |items| {
      MoveFirst(items, if i >= 0 then i else |items| + i);
    }
  }

  /** `_format_multiple_choice` with at least two items: `front >>A)` and the reordered choices below it. */
  function ChoiceLines(c: Flashcard): seq<string>
    requires c.cardType == MultipleChoice && ChoiceIndexOk(c) && |c.listItems| > 1
  {
    [Fx(c.front) + " >>A)"] + ItemLines(Reordered(c.listItems, c.correctChoiceIndex))
  }

  /** `_format_card` before the extra detail. A cloze card is its front, unescaped. */
  function Layout(c: Flashcard): string
    requires ChoiceIndexOk(c)
  {
    match c.cardType
    case Cloze => c.front
    case MultilineConcept => Join(MultilineLines(c), "\n")
    case ListAnswer =>
      if c.listItems != [] then Join(ListLines(c), "\n") else Fx(c.front) + " >> " + Fx(c.back)
    case MultipleChoice =>
      if |c.listItems| > 1 then Join(ChoiceLines(c), "\n") else Fx(c.front) + " >> " + Fx(c.back)
    case _ => Fx(c.front) + " " + Delimiter(c) + " " + Fx(c.back)
  }

  /** The extra-detail line, appended as it is, unescaped. */
  function ExtraLine(c: Flashcard): string {
    if c.extraDetail != "" then "\n    #[[Extra Card Detail]] " + c.extraDetail else ""
  }

  function CardText(c: Flashcard): string
    requires ChoiceIndexOk(c)
  {
    Layout(c) + ExtraLine(c)
  }

  /**
   * The texts the layout of `_format_card` hands to the escaper after front
   * and back: both again in a multiline card, the front and the items (or
   * the back) in a list or multiple-choice card.
   */
  function LayoutTexts(c: Flashcard): seq<string>
    requires ChoiceIndexOk(c)
  {
    match c.cardType
    case MultilineConcept => [c.front, c.back]
    case ListAnswer => [c.front] + (if c.listItems != [] then c.listItems else [c.back])
    case MultipleChoice =>
      [c.front] + (if |c.listItems| > 1 then Reordered(c.listItems, c.correctChoiceIndex) else [c.back])
    case _ => []
  }

  /** All texts `_format_card` escapes, in call order: front and back first. */
  function EscapedTexts(c: Flashcard): seq<string>
    requires ChoiceIndexOk(c)
  {
    [c.front, c.back] + LayoutTexts(c)
  }

  function CardEscapes(c: Flashcard): nat
    requires ChoiceIndexOk(c)
  {
    ChangedCount(Fixed, EscapedTexts(c))
  }

  /** A cloze card shows its front exactly, with the extra detail after it. */
  lemma ClozeVerbatim(c: Flashcard)
    requires c.cardType == Cloze
    ensures CardText(c) == c.front + ExtraLine(c)
    ensures CardEscapes(c) == ChangedCount(Fixed, [c.front, c.back])
  {
    assert LayoutTexts(c) == [];
    assert EscapedTexts(c) == [c.front, c.back];
  }

  /** The extra detail closes the card text as it was given, escaped or not. */
  lemma ExtraDetailVerbatim(c: Flashcard)
    requires ChoiceIndexOk(c) && c.extraDetail != ""
    ensures |CardText(c)| >= |c.extraDetail|
    ensures CardText(c)[|CardText(c)| - |c.extraDetail|..] == c.extraDetail
  {
    var pre := Layout(c) + "\n    #[[Extra Card Detail]] ";
    assert CardText(c) == pre + c.extraDetail;
  }

  /** A list answer shows one line per item under its question, each item escaped, in order. */
  lemma ListShape(c: Flashcard)
    requires c.listItems != []
    ensures |ListLines(c)| == |c.listItems| + 1
    ensures ListLines(c)[0] == Fx(c.front) + " >>1."
    ensures forall k :: 0 <= k < |c.listItems| ==> ListLines(c)[k + 1] == "    " + Fx(c.listItems[k])
  {
    ItemLinesByIndex(c.listItems);
  }

  /** A multiple-choice card shows every item once below its question, in the reordered order. */
  lemma {:induction false} ChoiceShape(c: Flashcard)
    requires c.cardType == MultipleChoice && ChoiceIndexOk(c) && |c.listItems| > 1
    ensures multiset(Reordered(c.listItems, c.correctChoiceIndex)) == multiset(c.listItems)
    ensures |ChoiceLines(c)| == |c.listItems| + 1
    ensures ChoiceLines(c)[0] == Fx(c.front) + " >>A)"
    ensures forall k :: 0 <= k < |c.listItems| ==>
              ChoiceLines(c)[k + 1] == "    " + Fx(Reordered(c.listItems, c.correctChoiceIndex)[k])
  {
    var r := Reordered(c.listItems, c.correctChoiceIndex);
    ReorderedIsPermutation(c.listItems, c.correctChoiceIndex);
    ItemLinesByIndex(r);
    assert |r| == |c.listItems|;
    var lines := ChoiceLines(c);
    assert lines == [Fx(c.front) + " >>A)"] + ItemLines(r);
    forall k | 0 <= k < |r|
      ensures lines[k + 1] == "    " + Fx(r[k])
    {
      assert lines[k + 1] == ItemLines(r)[k];
    }
  }

  /** When the correct answer is not first and the index is in range, its line comes right after the question. */
  lemma CorrectChoiceFirst(c: Flashcard)
    requires c.cardType == MultipleChoice && |c.listItems| > 1
    requires 0 < c.correctChoiceIndex < |c.listItems|
    ensures ChoiceLines(c)[1] == "    " + Fx(c.listItems[c.correctChoiceIndex])
  {
    ChoiceShape(c);
    ReorderedIsPermutation(c.listItems, c.correctChoiceIndex);
    assert Reordered(c.listItems, c.correctChoiceIndex)[0] == c.listItems[c.correctChoiceIndex];
  }

  // ---------------------------------------------------------------------
  // Lists of cards

  /** The cards every formatter call can lay out: no multiple-choice index lies before the first item. */
  predicate AllChoicesOk(cards: seq<Flashcard>) {
    forall c :: c in cards ==> ChoiceIndexOk(c)
  }

  /** The text of a card, for cards the formatter can lay out; the others never reach a formatter call. */
  function TextOf(c: Flashcard): string {
    if ChoiceIndexOk(c) then CardText(c) else ""
  }

  function EscapesOf(c: Flashcard): nat {
    if ChoiceIndexOk(c) then CardEscapes(c) else 0
  }

  /** `"    " * level`. */
  function Spaces(level: nat): (r: string)
    ensures |r| == 4 * level
    ensures forall k :: 0 <= k < |r| ==> r[k] == ' '
  {
    if level == 0 then "" else Spaces(level - 1) + "    "
  }

  /** A line of the hierarchy: a card at some depth, or a parent's bare heading. */
  datatype Row = At(level: nat, card: Flashcard) | Title(name: string)

  function RowText(r: Row, show: Flashcard -> string): string {
    match r
    case At(level, c) => Spaces(level) + show(c)
    case Title(p) => p
  }

  function RowLines(rows: seq<Row>, show: Flashcard -> string): seq<string> {
    if rows == [] then [] else RowLines(rows[..|rows| - 1], show) + [RowText(rows[|rows| - 1], show)]
  }

  /** The escapes made while writing the rows: each card row formats its card once more. */
  function RowEscapes(rows: seq<Row>, cost: Flashcard -> nat): nat {
    if rows == [] then 0
    else
      var r := rows[|rows| - 1];
      RowEscapes(rows[..|rows| - 1], cost) + if r.At? then cost(r.card) else 0
  }

  lemma WriteRow(rows: seq<Row>, r: Row, show: Flashcard -> string, cost: Flashcard -> nat)
    ensures RowLines(rows + [r], show) == RowLines(rows, show) + [RowText(r, show)]
    ensures RowEscapes(rows + [r], cost) == RowEscapes(rows, cost) + if r.At? then cost(r.card) else 0
  {
    assert (rows + [r])[..|rows|] == rows;
  }

  lemma {:induction false} RowLinesAppend(a: seq<Row>, b: seq<Row>, show: Flashcard -> string)
    ensures RowLines(a + b, show) == RowLines(a, show) + RowLines(b, show)
    decreases |b|
  {
    if b == [] {
      assert a + b == a;
    } else {
      RowLinesAppend(a, b[..|b| - 1], show);
      assert (a + b)[..|a + b| - 1] == a + b[..|b| - 1];
      assert (a + b)[|a + b| - 1] == b[|b| - 1];
    }
  }

  lemma {:induction false} RowEscapesAppend(a: seq<Row>, b: seq<Row>, cost: Flashcard -> nat)
    ensures RowEscapes(a + b, cost) == RowEscapes(a, cost) + RowEscapes(b, cost)
    decreases |b|
  {
    if b == [] {
      assert a + b == a;
    } else {
      RowEscapesAppend(a, b[..|b| - 1], cost);
      assert (a + b)[..|a + b| - 1] == a + b[..|b| - 1];
      assert (a + b)[|a + b| - 1] == b[|b| - 1];
    }
  }

  lemma RowsAppend(a: seq<Row>, b: seq<Row>, show: Flashcard -> string, cost: Flashcard -> nat)
    ensures RowLines(a + b, show) == RowLines(a, show) + RowLines(b, show)
    ensures RowEscapes(a + b, cost) == RowEscapes(a, cost) + RowEscapes(b, cost)
  {
    RowLinesAppend(a, b, show);
    RowEscapesAppend(a, b, cost);
  }

  /** The cards grouped under a card's front, then those grouped under its back. */
  function Children(cards: seq<Flashcard>, p: Flashcard): seq<Flashcard> {
    RemNoteFormatter.Kids(cards, p.front) + RemNoteFormatter.Kids(cards, p.back)
  }

  /**
   * `_add_child_cards(p, level)`: each child at `level`, followed by its own
   * descendants one level deeper. Every call takes one unit of `depth`, the
   * recursion the interpreter still allows; a call with none left fails, as
   * Python's recursion limit does.
   */
  function Descend(cards: seq<Flashcard>, p: Flashcard, level: nat, depth: nat): Option<seq<Row>>
    decreases depth, 0
  {
    if depth == 0 then None else Walk(cards, Children(cards, p), level, depth - 1)
  }

  function Walk(cards: seq<Flashcard>, cs: seq<Flashcard>, level: nat, depth: nat): Option<seq<Row>>
    decreases depth, |cs|
  {
    if cs == [] then Some([])
    else
      match Walk(cards, cs[..|cs| - 1], level, depth)
      case None => None
      case Some(before) =>
        match Descend(cards, cs[|cs| - 1], level + 1, depth)
        case None => None
        case Some(below) => Some(before + [At(level, cs[|cs| - 1])] + below)
  }

  /** Once one child's descent fails, the whole walk fails. */
  lemma {:induction false} WalkFailsAt(cards: seq<Flashcard>, cs: seq<Flashcard>, k: nat, level: nat, depth: nat)
    requires k < |cs| && Descend(cards, cs[k], level + 1, depth).None?
    ensures Walk(cards, cs, level, depth).None?
    decreases |cs|
  {
    if k < |cs| - 1 {
      WalkFailsAt(cards, cs[..|cs| - 1], k, level, depth);
    }
  }

  /** A card among its own children recurses until the interpreter gives up. */
  lemma {:induction false} CycleNeverEnds(cards: seq<Flashcard>, c: Flashcard, level: nat, depth: nat)
    requires c in Children(cards, c)
    ensures Descend(cards, c, level, depth).None?
    decreases depth
  {
    if depth > 0 {
      var cs := Children(cards, c);
      var k :| 0 <= k < |cs| && cs[k] == c;
      CycleNeverEnds(cards, c, level + 1, depth - 1);
      WalkFailsAt(cards, cs, k, level, depth - 1);
    }
  }

  /** A card whose front or back is its own parent is its own child, so formatting below it never ends. */
  lemma OwnParentNeverEnds(cards: seq<Flashcard>, c: Flashcard, level: nat, depth: nat)
    requires c in cards && c.parent != "" && (c.parent == c.front || c.parent == c.back)
    ensures Descend(cards, c, level, depth).None?
  {
    RemNoteFormatter.KidsMembers(cards, c.front);
    RemNoteFormatter.KidsMembers(cards, c.back);
    CycleNeverEnds(cards, c, level, depth);
  }

  /** A card without children needs one call and writes nothing. */
  lemma LeafEnds(cards: seq<Flashcard>, c: Flashcard, level: nat, depth: nat)
    requires depth > 0 && Children(cards, c) == []
    ensures Descend(cards, c, level, depth) == Some([])
  {
  }

  /** Everything written below a card is a card row at least one level deeper than the card. */
  lemma {:induction false} DescendLevels(cards: seq<Flashcard>, p: Flashcard, level: nat, depth: nat)
    requires Descend(cards, p, level, depth).Some?
    ensures forall r :: r in Descend(cards, p, level, depth).value ==> r.At? && r.level >= level
    decreases depth, 0
  {
    WalkLevels(cards, Children(cards, p), level, depth - 1);
  }

  lemma {:induction false} WalkLevels(cards: seq<Flashcard>, cs: seq<Flashcard>, level: nat, depth: nat)
    requires Walk(cards, cs, level, depth).Some?
    ensures forall r :: r in Walk(cards, cs, level, depth).value ==> r.At? && r.level >= level
    ensures forall c :: c in cs ==> At(level, c) in Walk(cards, cs, level, depth).value
    decreases depth, |cs|
  {
    if cs != [] {
      var pre := cs[..|cs| - 1];
      var last := cs[|cs| - 1];
      WalkLevels(cards, pre, level, depth);
      DescendLevels(cards, last, level + 1, depth);
      assert cs == pre + [last];
    }
  }

  /** Each root in order, unprefixed, with its descendants nested below it. */
  function RootRows(cards: seq<Flashcard>, roots: seq<Flashcard>, depth: nat): Option<seq<Row>> {
    if roots == [] then Some([])
    else
      match RootRows(cards, roots[..|roots| - 1], depth)
      case None => None
      case Some(before) =>
        match Descend(cards, roots[|roots| - 1], 1, depth)
        case None => None
        case Some(below) => Some(before + [At(0, roots[|roots| - 1])] + below)
  }

  /** The fronts of the roots: the parents the second half treats as processed. */
  function Fronts(roots: seq<Flashcard>): set<string> {
    set r | r in roots :: r.front
  }

  /** The cards one level down, in order, without their own children. */
  function LevelOne(cs: seq<Flashcard>): seq<Row> {
    if cs == [] then [] else LevelOne(cs[..|cs| - 1]) + [At(1, cs[|cs| - 1])]
  }

  /** The rows of one parent group: none when the parent is a root's front, else its heading and its children. */
  function Group(p: string, cards: seq<Flashcard>, fronts: set<string>): seq<Row> {
    if p in fronts then [] else [Title(p)] + LevelOne(RemNoteFormatter.Kids(cards, p))
  }

  /** The second half of `_format_hierarchical`: each parent that is no root's front, with its children. */
  function GroupRows(keys: seq<string>, cards: seq<Flashcard>, fronts: set<string>): seq<Row> {
    if keys == [] then [] else GroupRows(keys[..|keys| - 1], cards, fronts) + Group(keys[|keys| - 1], cards, fronts)
  }

  /** `_format_hierarchical`: the roots with their descendants, then the groups not yet shown. */
  function HierarchyRows(cards: seq<Flashcard>, depth: nat): Option<seq<Row>> {
    var roots := RemNoteFormatter.Roots(cards);
    match RootRows(cards, roots, depth)
    case None => None
    case Some(top) => Some(top + GroupRows(RemNoteFormatter.ParentKeys(cards), cards, Fronts(roots)))
  }

  /** A line of `_format_flat`: the card, then its tags when it has any. */
  function FlatLine(c: Flashcard): string {
    TextOf(c) + if c.tags != [] then " " + Join(RemNoteFormatter.TagWords(c.tags), " ") else ""
  }

  function FlatLines(cards: seq<Flashcard>): seq<string> {
    if cards == [] then [] else FlatLines(cards[..|cards| - 1]) + [FlatLine(cards[|cards| - 1])]
  }

  function FlatEscapes(cards: seq<Flashcard>): nat {
    if cards == [] then 0 else FlatEscapes(cards[..|cards| - 1]) + EscapesOf(cards[|cards| - 1])
  }

  /** `format_cards`: nothing for no cards, else the lines of the chosen layout; the hierarchy may exhaust the recursion. */
  function Output(cards: seq<Flashcard>, hierarchy: bool, depth: nat): Option<string> {
    if cards == [] then Some("")
    else if !hierarchy then Some(Join(FlatLines(cards), "\n"))
    else
      match HierarchyRows(cards, depth)
      case None => None
      case Some(rows) => Some(Join(RowLines(rows, TextOf), "\n"))
  }

  /** The escapes counted while writing the chosen layout. */
  function LayoutEscapes(cards: seq<Flashcard>, hierarchy: bool, depth: nat): nat {
    if !hierarchy then FlatEscapes(cards)
    else
      match HierarchyRows(cards, depth)
      case None => 0
      case Some(rows) => RowEscapes(rows, EscapesOf)
  }

  lemma {:induction false} LevelOneHas(cs: seq<Flashcard>, c: Flashcard)
    requires c in cs
    ensures At(1, c) in LevelOne(cs)
  {
    var pre := cs[..|cs| - 1];
    if c != cs[|cs| - 1] {
      assert cs == pre + [cs[|cs| - 1]];
      LevelOneHas(pre, c);
    }
  }

  lemma {:induction false} RootRowsHas(cards: seq<Flashcard>, roots: seq<Flashcard>, depth: nat, r: Flashcard)
    requires r in roots && RootRows(cards, roots, depth).Some?
    ensures Descend(cards, r, 1, depth).Some?
    ensures forall x :: x in Descend(cards, r, 1, depth).value ==> x in RootRows(cards, roots, depth).value
  {
    var pre := roots[..|roots| - 1];
    if r != roots[|roots| - 1] {
      assert roots == pre + [roots[|roots| - 1]];
      RootRowsHas(cards, pre, depth, r);
    }
  }

  lemma {:induction false} GroupRowsHas(keys: seq<string>, cards: seq<Flashcard>, fronts: set<string>, p: string)
    requires p in keys && p !in fronts
    ensures forall x :: x in LevelOne(RemNoteFormatter.Kids(cards, p)) ==> x in GroupRows(keys, cards, fronts)
  {
    var pre := keys[..|keys| - 1];
    if p != keys[|keys| - 1] {
      assert keys == pre + [keys[|keys| - 1]];
      GroupRowsHas(pre, cards, fronts, p);
    }
  }

  /** A grandchild of a root is written two levels below it. */
  lemma NestedTwoDeep(cards: seq<Flashcard>, roots: seq<Flashcard>, depth: nat, r: Flashcard, c: Flashcard, g: Flashcard)
    requires r in roots && c in Children(cards, r) && g in Children(cards, c)
    requires RootRows(cards, roots, depth).Some?
    ensures At(2, g) in RootRows(cards, roots, depth).value
  {
    RootRowsHas(cards, roots, depth, r);
    WalkHasBelow(cards, Children(cards, r), c, 1, depth - 1);
    WalkLevels(cards, Children(cards, c), 2, depth - 2);
  }

  /** A card whose parent is no root's front is written again one level below that parent's heading. */
  lemma Regrouped(cards: seq<Flashcard>, fronts: set<string>, g: Flashcard)
    requires g in cards && g.parent != "" && g.parent !in fronts
    ensures At(1, g) in GroupRows(RemNoteFormatter.ParentKeys(cards), cards, fronts)
  {
    RemNoteFormatter.KidsMembers(cards, g.parent);
    RemNoteFormatter.KidsKeys(cards, g.parent);
    GroupRowsHas(RemNoteFormatter.ParentKeys(cards), cards, fronts, g.parent);
    LevelOneHas(RemNoteFormatter.Kids(cards, g.parent), g);
  }

  /**
   * A grandchild is written twice: nested two levels below its root, and
   * again one level below a bare heading for its parent, since only the
   * roots' fronts count as processed.
   */
  lemma GrandchildWrittenTwice(cards: seq<Flashcard>, depth: nat, r: Flashcard, c: Flashcard, g: Flashcard)
    requires r in cards && c in cards && g in cards
    requires r.parent == "" && c.parent == r.front != "" && g.parent == c.front != ""
    requires c.front !in Fronts(RemNoteFormatter.Roots(cards))
    requires HierarchyRows(cards, depth).Some?
    ensures At(2, g) in HierarchyRows(cards, depth).value
    ensures At(1, g) in HierarchyRows(cards, depth).value
  {
    var roots := RemNoteFormatter.Roots(cards);
    RemNoteFormatter.RootsMembers(cards);
    RemNoteFormatter.KidsMembers(cards, r.front);
    RemNoteFormatter.KidsMembers(cards, c.front);
    NestedTwoDeep(cards, roots, depth, r, c, g);
    Regrouped(cards, Fronts(roots), g);
  }

  /** A successful walk holds, for each of its cards, everything written below that card. */
  lemma {:induction false} WalkHasBelow(cards: seq<Flashcard>, cs: seq<Flashcard>, c: Flashcard, level: nat, depth: nat)
    requires c in cs && Walk(cards, cs, level, depth).Some?
    ensures depth > 0 && Walk(cards, Children(cards, c), level + 1, depth - 1).Some?
    ensures forall x :: x in Walk(cards, Children(cards, c), level + 1, depth - 1).value ==> x in Walk(cards, cs, level, depth).value
    decreases |cs|
  {
    var pre := cs[..|cs| - 1];
    if c != cs[|cs| - 1] {
      assert cs == pre + [cs[|cs| - 1]];
      WalkHasBelow(cards, pre, c, level, depth);
    }
  }

  /** The children of a card are cards of the list. */
  lemma ChildrenIn(cards: seq<Flashcard>, p: Flashcard)
    ensures forall x :: x in Children(cards, p) ==> x in cards
  {
    RemNoteFormatter.KidsMembers(cards, p.front);
    RemNoteFormatter.KidsMembers(cards, p.back);
  }

  /** A walk that fails on a prefix fails. */
  lemma {:induction false} WalkPrefixFails(cards: seq<Flashcard>, cs: seq<Flashcard>, k: nat, level: nat, depth: nat)
    requires k <= |cs| && Walk(cards, cs[..k], level, depth).None?
    ensures Walk(cards, cs, level, depth).None?
    decreases |cs|
  {
    if k < |cs| {
      assert cs[..|cs| - 1][..k] == cs[..k];
      WalkPrefixFails(cards, cs[..|cs| - 1], k, level, depth);
    } else {
      assert cs[..k] == cs;
    }
  }

  lemma {:induction false} RootRowsPrefixFails(cards: seq<Flashcard>, roots: seq<Flashcard>, k: nat, depth: nat)
    requires k <= |roots| && RootRows(cards, roots[..k], depth).None?
    ensures RootRows(cards, roots, depth).None?
    decreases |roots|
  {
    if k < |roots| {
      assert roots[..|roots| - 1][..k] == roots[..k];
      RootRowsPrefixFails(cards, roots[..|roots| - 1], k, depth);
    } else {
      assert roots[..k] == roots;
    }
  }

  /** One more child: its row, then what its own descent writes, if that ends. */
  lemma WalkStep(cards: seq<Flashcard>, cs: seq<Flashcard>, k: nat, level: nat, depth: nat, before: seq<Row>)
    requires k < |cs| && Walk(cards, cs[..k], level, depth) == Some(before)
    ensures Descend(cards, cs[k], level + 1, depth).None? ==> Walk(cards, cs[..k + 1], level, depth).None?
    ensures Descend(cards, cs[k], level + 1, depth).Some? ==>
              Walk(cards, cs[..k + 1], level, depth)
                == Some(before + [At(level, cs[k])] + Descend(cards, cs[k], level + 1, depth).value)
  {
    assert cs[..k + 1][..k] == cs[..k];
  }

  /** One more root: its unprefixed row, then its descendants, if that ends. */
  lemma RootStep(cards: seq<Flashcard>, roots: seq<Flashcard>, k: nat, depth: nat, before: seq<Row>)
    requires k < |roots| && RootRows(cards, roots[..k], depth) == Some(before)
    ensures Descend(cards, roots[k], 1, depth).None? ==> RootRows(cards, roots[..k + 1], depth).None?
    ensures Descend(cards, roots[k], 1, depth).Some? ==>
              RootRows(cards, roots[..k + 1], depth)
                == Some(before + [At(0, roots[k])] + Descend(cards, roots[k], 1, depth).value)
  {
    assert roots[..k + 1][..k] == roots[..k];
  }

  /** The parents a hierarchy rewrites: every row of the output is a root's, a walk's or a group's. */
  lemma HierarchySplit(cards: seq<Flashcard>, depth: nat, top: seq<Row>, roots: seq<Flashcard>,
                       show: Flashcard -> string, cost: Flashcard -> nat)
    requires roots == RemNoteFormatter.Roots(cards) && RootRows(cards, roots, depth) == Some(top)
    ensures HierarchyRows(cards, depth).Some?
    ensures var rest := GroupRows(RemNoteFormatter.ParentKeys(cards), cards, Fronts(roots));
            RowLines(HierarchyRows(cards, depth).value, show) == RowLines(top, show) + RowLines(rest, show)
            && RowEscapes(HierarchyRows(cards, depth).value, cost) == RowEscapes(top, cost) + RowEscapes(rest, cost)
  {
    RowsAppend(top, GroupRows(RemNoteFormatter.ParentKeys(cards), cards, Fronts(roots)), show, cost);
  }

  /** Lines written so far, a card's line, then what the recursive call wrote after them. */
  lemma Regroup(lines: seq<string>, done: seq<string>, line: string, more: seq<string>)
    ensures lines + done + [line] + more == lines + (done + [line] + more)
  {
  }

  /** A card's row between what was written before it and what its descent writes. */
  lemma Splice(before: seq<Row>, r: Row, below: seq<Row>, show: Flashcard -> string, cost: Flashcard -> nat)
    ensures RowLines(before + [r] + below, show) == RowLines(before, show) + [RowText(r, show)] + RowLines(below, show)
    ensures RowEscapes(before + [r] + below, cost)
              == RowEscapes(before, cost) + RowEscapes([r], cost) + RowEscapes(below, cost)
  {
    WriteRow(before, r, show, cost);
    RowsAppend(before + [r], below, show, cost);
    RowEscapesAppend(before, [r], cost);
  }

  /** One more key: nothing when it is a root's front, else its heading and its children. */
  lemma GroupStep(keys: seq<string>, i: nat, cards: seq<Flashcard>, fronts: set<string>,
                  show: Flashcard -> string, cost: Flashcard -> nat)
    requires i < |keys|
    ensures RowLines(GroupRows(keys[..i + 1], cards, fronts), show)
              == RowLines(GroupRows(keys[..i], cards, fronts), show) + RowLines(Group(keys[i], cards, fronts), show)
    ensures RowEscapes(GroupRows(keys[..i + 1], cards, fronts), cost)
              == RowEscapes(GroupRows(keys[..i], cards, fronts), cost) + RowEscapes(Group(keys[i], cards, fronts), cost)
  {
    assert keys[..i + 1][..i] == keys[..i];
    RowsAppend(GroupRows(keys[..i], cards, fronts), Group(keys[i], cards, fronts), show, cost);
  }

  /** A heading followed by its children. */
  lemma HeadingRows(p: string, cs: seq<Flashcard>, show: Flashcard -> string, cost: Flashcard -> nat)
    ensures RowLines([Title(p)] + LevelOne(cs), show) == [p] + RowLines(LevelOne(cs), show)
    ensures RowEscapes([Title(p)] + LevelOne(cs), cost) == RowEscapes(LevelOne(cs), cost)
  {
    WriteRow([], Title(p), show, cost);
    assert [] + [Title(p)] == [Title(p)];
    RowsAppend([Title(p)], LevelOne(cs), show, cost);
  }

  /** The cards one level down, one row each. */
  lemma LevelOneStep(cs: seq<Flashcard>, k: nat, show: Flashcard -> string, cost: Flashcard -> nat)
    requires k < |cs|
    ensures RowLines(LevelOne(cs[..k + 1]), show) == RowLines(LevelOne(cs[..k]), show) + ["    " + show(cs[k])]
    ensures RowEscapes(LevelOne(cs[..k + 1]), cost) == RowEscapes(LevelOne(cs[..k]), cost) + cost(cs[k])
  {
    assert cs[..k + 1][..k] == cs[..k];
    assert Spaces(1) == "    ";
    WriteRow(LevelOne(cs[..k]), At(1, cs[k]), show, cost);
  }

  lemma FlatStep(cards: seq<Flashcard>, i: nat)
    requires i < |cards|
    ensures FlatLines(cards[..i + 1]) == FlatLines(cards[..i]) + [FlatLine(cards[i])]
    ensures FlatEscapes(cards[..i + 1]) == FlatEscapes(cards[..i]) + EscapesOf(cards[i])
  {
    assert cards[..i + 1][..i] == cards[..i];
  }

  // ---------------------------------------------------------------------
  // Syntax conflicts

  /** How many delimiters a line holds, counting `::`, `>>`, `;;`, `<<`, `<>` and `=-`. */
  function DelimiterCount(line: string): nat {
    Count(line, "::") + Count(line, ">>") + Count(line, ";;") + Count(line, "<<") + Count(line, "<>") + Count(line, "=-")
  }

  /** `_check_for_syntax_conflicts`: no line holds more than one delimiter. */
  predicate NoConflicts(text: string) {
    forall k :: 0 <= k < |SplitOn(text, '\n')| ==> DelimiterCount(SplitOn(text, '\n')[k]) <= 1
  }

  /** A line without any delimiter counts none. */
  lemma DelimiterFree(line: string)
    requires !Contains(line, "::") && !Contains(line, ">>") && !Contains(line, ";;")
    requires !Contains(line, "<<") && !Contains(line, "<>") && !Contains(line, "=-")
    ensures DelimiterCount(line) == 0
  {
    CountZeroIffAbsent(line, "::");
    CountZeroIffAbsent(line, ">>");
    CountZeroIffAbsent(line, ";;");
    CountZeroIffAbsent(line, "<<");
    CountZeroIffAbsent(line, "<>");
    CountZeroIffAbsent(line, "=-");
  }

  /** A single line with two different delimiters is a conflict. */
  lemma TwoDelimitersConflict(line: string, a: string, b: string)
    requires '\n' !in line
    requires a in ["::", ">>", ";;", "<<", "<>", "=-"] && b in ["::", ">>", ";;", "<<", "<>", "=-"] && a != b
    requires Contains(line, a) && Contains(line, b)
    ensures !NoConflicts(line)
  {
    SplitOnWhole(line, '\n');
    CountZeroIffAbsent(line, a);
    CountZeroIffAbsent(line, b);
    assert Count(line, a) >= 1 && Count(line, b) >= 1;
    assert DelimiterCount(SplitOn(line, '\n')[0]) > 1;
  }

  // ---------------------------------------------------------------------
  // The formatter object

  /** A card's text is its layout and the extra detail; its escapes are those of front, back and the layout's texts. */
  lemma CardParts(c: Flashcard)
    requires ChoiceIndexOk(c)
    ensures CardText(c) == Layout(c) + ExtraLine(c)
    ensures CardEscapes(c) == ChangedCount(Fixed, [c.front]) + ChangedCount(Fixed, [c.back]) + ChangedCount(Fixed, LayoutTexts(c))
  {
    ChangedCountAppend(Fixed, [c.front], [c.back]);
    assert [c.front] + [c.back] == [c.front, c.back];
    ChangedCountAppend(Fixed, [c.front, c.back], LayoutTexts(c));
  }

  class Formatter {
    var stats: RemNoteFormatter.Stats

    constructor()
      ensures stats == RemNoteFormatter.NoStats
    {
      stats := RemNoteFormatter.NoStats;
    }

    method ResetStats()
      modifies this
      ensures stats == RemNoteFormatter.NoStats
    {
      stats := RemNoteFormatter.NoStats;
    }

    /** `_escape_special_chars`: the statistic grows by one when the text changed length, that is, changed. */
    method EscapeSpecialChars(text: string) returns (escaped: string)
      modifies this
      ensures escaped == Fx(text)
      ensures stats == old(stats).(specialCharsEscaped := old(stats).specialCharsEscaped + ChangedCount(Fixed, [text]))
    {
      assert ChangedCount(Fixed, [text]) == if Fx(text) != text then 1 else 0 by {
        assert [text][..0] == [];
      }
      if text == [] {
        return text;
      }
      escaped := EscapeText(Fixed, text);
      EscapeChangedIffLonger(Fixed, text);
      if |escaped| != |text| {
        stats := stats.(specialCharsEscaped := stats.specialCharsEscaped + 1);
      }
    }

    /** The loop shared by the list and multiple-choice layouts: each item escaped and indented. */
    method EscapeItems(items: seq<string>) returns (lines: seq<string>)
      modifies this
      ensures lines == ItemLines(items)
      ensures stats == old(stats).(specialCharsEscaped := old(stats).specialCharsEscaped + ChangedCount(Fixed, items))
    {
      lines := [];
      for k := 0 to |items|
        invariant lines == ItemLines(items[..k])
        invariant stats == old(stats).(specialCharsEscaped := old(stats).specialCharsEscaped
                                       + ChangedCount(Fixed, items[..k]))
      {
        var escaped := EscapeSpecialChars(items[k]);
        assert items[..k + 1][..k] == items[..k];
        lines := lines + ["    " + escaped];
      }
      assert items[..|items|] == items;
    }

    method FormatCloze(c: Flashcard) returns (text: string)
      ensures text == c.front
    {
      text := c.front;
      if !HasClozeSpan(text) {
        return text;
      }
      return text;
    }

    /** The non-blank lines of the back, stripped and indented. */
    method BodyBlock(lines: seq<string>) returns (body: seq<string>)
      ensures body == BodyLines(lines)
    {
      body := [];
      for k := 0 to |lines|
        invariant body == BodyLines(lines[..k])
      {
        assert lines[..k + 1][..k] == lines[..k];
        var t := Strip(lines[k]);
        if t != "" {
          body := body + ["    " + t];
        }
      }
      assert lines[..|lines|] == lines;
    }

    method FormatMultilineConcept(c: Flashcard) returns (text: string)
      modifies this
      ensures text == Join(MultilineLines(c), "\n")
      ensures stats == old(stats).(specialCharsEscaped := old(stats).specialCharsEscaped
                                   + ChangedCount(Fixed, [c.front, c.back]))
    {
      var front := EscapeSpecialChars(c.front);
      var back := EscapeSpecialChars(c.back);
      ChangedCountAppend(Fixed, [c.front], [c.back]);
      assert [c.front] + [c.back] == [c.front, c.back];
      var lines: seq<string>;
      if c.useTripleDelimiter {
        var body := BodyBlock(SplitOn(Replace(back, "\\n", "\n"), '\n'));
        lines := [front + " :::"] + body;
      } else {
        lines := [front + " ::", "    " + Replace(back, "\\n", "\n    ")];
      }
      text := Join(lines, "\n");
    }

    method FormatListAnswer(c: Flashcard) returns (text: string)
      modifies this
      ensures text == if c.listItems != [] then Join(ListLines(c), "\n") else Fx(c.front) + " >> " + Fx(c.back)
      ensures stats == old(stats).(specialCharsEscaped := old(stats).specialCharsEscaped
                                   + ChangedCount(Fixed, [c.front] + if c.listItems != [] then c.listItems else [c.back]))
    {
      var front := EscapeSpecialChars(c.front);
      if c.listItems != [] {
        var items := EscapeItems(c.listItems);
        ChangedCountAppend(Fixed, [c.front], c.listItems);
        return Join([front + " >>1."] + items, "\n");
      }
      var back := EscapeSpecialChars(c.back);
      ChangedCountAppend(Fixed, [c.front], [c.back]);
      text := front + " >> " + back;
    }

    /** The correct answer popped from its place and inserted first, as on a copied list. */
    method PutCorrectFirst(items: seq<string>, i: int) returns (choices: seq<string>)
      requires i >= -|items|
      ensures choices == Reordered(items, i)
    {
      choices := items;
      if i != 0 && i < |choices| {
        var j := if i >= 0 then i else |choices| + i;
        var correct := choices[j];
        choices := choices[..j] + choices[j + 1..];
        choices := [correct] + choices;
      }
    }

    method FormatMultipleChoice(c: Flashcard) returns (text: string)
      modifies this
      requires c.cardType == MultipleChoice && ChoiceIndexOk(c)
      ensures text == if |c.listItems| > 1 then Join(ChoiceLines(c), "\n") else Fx(c.front) + " >> " + Fx(c.back)
      ensures stats == old(stats).(specialCharsEscaped := old(stats).specialCharsEscaped
                                   + ChangedCount(Fixed, [c.front] + if |c.listItems| > 1
                                                                     then Reordered(c.listItems, c.correctChoiceIndex)
                                                                     else [c.back]))
    {
      var front := EscapeSpecialChars(c.front);
      if |c.listItems| > 1 {
        var choices := PutCorrectFirst(c.listItems, c.correctChoiceIndex);
        var lines := EscapeItems(choices);
        ChangedCountAppend(Fixed, [c.front], choices);
        return Join([front + " >>A)"] + lines, "\n");
      }
      var back := EscapeSpecialChars(c.back);
      ChangedCountAppend(Fixed, [c.front], [c.back]);
      text := front + " >> " + back;
    }

    /** The layout chosen by the card's type, given the escaped front and back. */
    method FormatLayout(c: Flashcard, front: string, back: string) returns (text: string)
      modifies this
      requires ChoiceIndexOk(c) && front == Fx(c.front) && back == Fx(c.back)
      ensures text == Layout(c)
      ensures stats == old(stats).(specialCharsEscaped := old(stats).specialCharsEscaped + ChangedCount(Fixed, LayoutTexts(c)))
    {
      match c.cardType {
        case Cloze =>
          text := FormatCloze(c);
        case MultilineConcept =>
          text := FormatMultilineConcept(c);
        case ListAnswer =>
          text := FormatListAnswer(c);
        case MultipleChoice =>
          text := FormatMultipleChoice(c);
        case _ =>
          text := front + " " + Delimiter(c) + " " + back;
      }
    }

    /** `_format_card`: escapes front and back first, lays the card out by type and direction, then adds the extra detail. */
    method FormatCard(c: Flashcard) returns (text: string)
      modifies this
      requires ChoiceIndexOk(c)
      ensures text == CardText(c)
      ensures stats == old(stats).(specialCharsEscaped := old(stats).specialCharsEscaped + CardEscapes(c))
    {
      CardParts(c);
      var front := EscapeSpecialChars(c.front);
      var back := EscapeSpecialChars(c.back);
      text := FormatLayout(c, front, back);
      if c.extraDetail != "" {
        text := text + "\n    #[[Extra Card Detail]] " + c.extraDetail;
      }
    }

    /** One card's line at `level`: the card's text behind `"    " * level`. */
    method FormatRow(c: Flashcard, level: nat) returns (line: string)
      modifies this
      requires ChoiceIndexOk(c)
      ensures line == RowText(At(level, c), TextOf)
      ensures stats == old(stats).(specialCharsEscaped := old(stats).specialCharsEscaped + EscapesOf(c))
    {
      var formatted := FormatCard(c);
      line := Spaces(level) + formatted;
    }

    /**
     * `_add_child_cards`: the cards grouped under the parent's front and then
     * under its back, each at `level` with its own children below it. A call
     * with no recursion left fails.
     */
    method AddChildCards(cards: seq<Flashcard>, parent: Flashcard, hierarchy: map<string, seq<Flashcard>>,
                         lines: seq<string>, level: nat, depth: nat) returns (out: Option<seq<string>>)
      modifies this
      requires (forall p :: RemNoteFormatter.Get(hierarchy, p) == RemNoteFormatter.Kids(cards, p)) && AllChoicesOk(cards)
      ensures out.Some? <==> Descend(cards, parent, level, depth).Some?
      ensures out.Some? ==> out.value == lines + RowLines(Descend(cards, parent, level, depth).value, TextOf)
      ensures out.Some? ==> stats == old(stats).(specialCharsEscaped := old(stats).specialCharsEscaped
                                                + RowEscapes(Descend(cards, parent, level, depth).value, EscapesOf))
      decreases depth, 0
    {
      if depth == 0 {
        return None;
      }
      var children := RemNoteFormatter.Get(hierarchy, parent.front) + RemNoteFormatter.Get(hierarchy, parent.back);
      assert children == Children(cards, parent);
      ChildrenIn(cards, parent);
      out := AddEachChild(cards, children, hierarchy, lines, level, depth - 1);
    }

    /** The loop of `_add_child_cards`: each child's line, then the recursive call for it. */
    method AddEachChild(cards: seq<Flashcard>, children: seq<Flashcard>, hierarchy: map<string, seq<Flashcard>>,
                        lines: seq<string>, level: nat, depth: nat) returns (out: Option<seq<string>>)
      modifies this
      requires (forall p :: RemNoteFormatter.Get(hierarchy, p) == RemNoteFormatter.Kids(cards, p)) && AllChoicesOk(cards)
      requires forall c :: c in children ==> c in cards
      ensures out.Some? <==> Walk(cards, children, level, depth).Some?
      ensures out.Some? ==> out.value == lines + RowLines(Walk(cards, children, level, depth).value, TextOf)
      ensures out.Some? ==> stats == old(stats).(specialCharsEscaped := old(stats).specialCharsEscaped
                                                + RowEscapes(Walk(cards, children, level, depth).value, EscapesOf))
      decreases depth, 1
    {
      var acc := lines;
      ghost var rows: seq<Row> := [];
      for k := 0 to |children|
        invariant Walk(cards, children[..k], level, depth) == Some(rows)
        invariant acc == lines + RowLines(rows, TextOf)
        invariant stats == old(stats).(specialCharsEscaped := old(stats).specialCharsEscaped + RowEscapes(rows, EscapesOf))
      {
        assert children[k] in cards;
        var line := FormatRow(children[k], level);
        var sub := AddChildCards(cards, children[k], hierarchy, acc + [line], level + 1, depth);
        WalkStep(cards, children, k, level, depth, rows);
        if sub.None? {
          WalkPrefixFails(cards, children, k + 1, level, depth);
          return None;
        }
        ghost var below := Descend(cards, children[k], level + 1, depth).value;
        Splice(rows, At(level, children[k]), below, TextOf, EscapesOf);
        Regroup(lines, RowLines(rows, TextOf), line, RowLines(below, TextOf));
        rows := rows + [At(level, children[k])] + below;
        acc := sub.value;
      }
      assert children[..|children|] == children;
      return Some(acc);
    }

    /** The first half of `_format_hierarchical`: each root, unprefixed, with its descendants. */
    method WriteRoots(cards: seq<Flashcard>, roots: seq<Flashcard>, hierarchy: map<string, seq<Flashcard>>, depth: nat)
      returns (out: Option<seq<string>>)
      modifies this
      requires (forall p :: RemNoteFormatter.Get(hierarchy, p) == RemNoteFormatter.Kids(cards, p)) && AllChoicesOk(cards)
      requires forall r :: r in roots ==> r in cards
      ensures out.Some? <==> RootRows(cards, roots, depth).Some?
      ensures out.Some? ==> out.value == RowLines(RootRows(cards, roots, depth).value, TextOf)
      ensures out.Some? ==> stats == old(stats).(specialCharsEscaped := old(stats).specialCharsEscaped
                                                + RowEscapes(RootRows(cards, roots, depth).value, EscapesOf))
    {
      var lines: seq<string> := [];
      ghost var rows: seq<Row> := [];
      for i := 0 to |roots|
        invariant RootRows(cards, roots[..i], depth) == Some(rows)
        invariant lines == RowLines(rows, TextOf)
        invariant stats == old(stats).(specialCharsEscaped := old(stats).specialCharsEscaped + RowEscapes(rows, EscapesOf))
      {
        assert roots[i] in cards;
        var sub := WriteRoot(cards, hierarchy, roots[i], lines, depth);
        RootStep(cards, roots, i, depth, rows);
        if sub.None? {
          RootRowsPrefixFails(cards, roots, i + 1, depth);
          return None;
        }
        ghost var below := Descend(cards, roots[i], 1, depth).value;
        Splice(rows, At(0, roots[i]), below, TextOf, EscapesOf);
        rows := rows + [At(0, roots[i])] + below;
        lines := sub.value;
      }
      assert roots[..|roots|] == roots;
      return Some(lines);
    }

    /** One root of `_format_hierarchical`: its own line, then its descendants. */
    method WriteRoot(cards: seq<Flashcard>, hierarchy: map<string, seq<Flashcard>>, r: Flashcard,
                     lines: seq<string>, depth: nat) returns (sub: Option<seq<string>>)
      modifies this
      requires (forall p :: RemNoteFormatter.Get(hierarchy, p) == RemNoteFormatter.Kids(cards, p)) && AllChoicesOk(cards)
      requires r in cards
      ensures sub.Some? <==> Descend(cards, r, 1, depth).Some?
      ensures sub.Some? ==> sub.value == lines + [RowText(At(0, r), TextOf)] + RowLines(Descend(cards, r, 1, depth).value, TextOf)
      ensures sub.Some? ==> stats == old(stats).(specialCharsEscaped := old(stats).specialCharsEscaped
                                                + RowEscapes([At(0, r)], EscapesOf)
                                                + RowEscapes(Descend(cards, r, 1, depth).value, EscapesOf))
    {
      var line := FormatRow(r, 0);
      sub := AddChildCards(cards, r, hierarchy, lines + [line], 1, depth);
    }

    /** The children of a group, each formatted one level down without its own children. */
    method WriteLevelOne(children: seq<Flashcard>) returns (lines: seq<string>)
      modifies this
      requires AllChoicesOk(children)
      ensures lines == RowLines(LevelOne(children), TextOf)
      ensures stats == old(stats).(specialCharsEscaped := old(stats).specialCharsEscaped
                                   + RowEscapes(LevelOne(children), EscapesOf))
    {
      lines := [];
      for k := 0 to |children|
        invariant lines == RowLines(LevelOne(children[..k]), TextOf)
        invariant stats == old(stats).(specialCharsEscaped := old(stats).specialCharsEscaped
                                       + RowEscapes(LevelOne(children[..k]), EscapesOf))
      {
        var formatted := FormatCard(children[k]);
        LevelOneStep(children, k, TextOf, EscapesOf);
        lines := lines + ["    " + formatted];
      }
      assert children[..|children|] == children;
    }

    /**
     * The second half of `_format_hierarchical`: every group whose parent is
     * not a root's front, under a bare heading. Adding a parent to the
     * processed set changes nothing later, since the keys are distinct.
     */
    method WriteGroups(cards: seq<Flashcard>, hierarchy: map<string, seq<Flashcard>>, roots: seq<Flashcard>)
      returns (lines: seq<string>)
      modifies this
      requires RemNoteFormatter.Grouping(cards, hierarchy) && AllChoicesOk(cards)
      ensures lines == RowLines(GroupRows(RemNoteFormatter.ParentKeys(cards), cards, Fronts(roots)), TextOf)
      ensures stats == old(stats).(specialCharsEscaped := old(stats).specialCharsEscaped
                                   + RowEscapes(GroupRows(RemNoteFormatter.ParentKeys(cards), cards, Fronts(roots)), EscapesOf))
    {
      RemNoteFormatter.GroupingKeyed(cards, hierarchy);
      lines := WriteKeyedGroups(cards, hierarchy, RemNoteFormatter.ParentKeys(cards), roots);
    }

    /** The loop over the grouping dictionary's items, in key order; the roots' fronts count as processed. */
    method WriteKeyedGroups(cards: seq<Flashcard>, hierarchy: map<string, seq<Flashcard>>, order: seq<string>,
                            roots: seq<Flashcard>) returns (lines: seq<string>)
      modifies this
      requires RemNoteFormatter.Keyed(cards, hierarchy, order) && AllChoicesOk(cards)
      ensures lines == RowLines(GroupRows(order, cards, Fronts(roots)), TextOf)
      ensures stats == old(stats).(specialCharsEscaped := old(stats).specialCharsEscaped
                                   + RowEscapes(GroupRows(order, cards, Fronts(roots)), EscapesOf))
    {
      var processed := Fronts(roots);
      lines := [];
      for i := 0 to |order|
        invariant lines == RowLines(GroupRows(order[..i], cards, Fronts(roots)), TextOf)
        invariant stats == old(stats).(specialCharsEscaped := old(stats).specialCharsEscaped
                                       + RowEscapes(GroupRows(order[..i], cards, Fronts(roots)), EscapesOf))
        invariant forall k :: i <= k < |order| ==> (order[k] in processed <==> order[k] in Fronts(roots))
      {
        GroupStep(order, i, cards, Fronts(roots), TextOf, EscapesOf);
        var group;
        group, processed := WriteNextGroup(cards, hierarchy, order, i, roots, processed);
        lines := lines + group;
      }
      assert order[..|order|] == order;
    }

    /** One turn of the group loop: a key that is no root's front gets a heading and its children. */
    method WriteNextGroup(cards: seq<Flashcard>, hierarchy: map<string, seq<Flashcard>>, order: seq<string>, i: nat,
                          roots: seq<Flashcard>, processed: set<string>) returns (group: seq<string>, processed': set<string>)
      modifies this
      requires RemNoteFormatter.Keyed(cards, hierarchy, order) && AllChoicesOk(cards) && i < |order|
      requires forall k :: i <= k < |order| ==> (order[k] in processed <==> order[k] in Fronts(roots))
      ensures group == RowLines(Group(order[i], cards, Fronts(roots)), TextOf)
      ensures stats == old(stats).(specialCharsEscaped := old(stats).specialCharsEscaped
                                   + RowEscapes(Group(order[i], cards, Fronts(roots)), EscapesOf))
      ensures forall k :: i < k < |order| ==> (order[k] in processed' <==> order[k] in Fronts(roots))
    {
      var parent := order[i];
      processed' := processed;
      if parent !in processed {
        var children := hierarchy[parent];
        RemNoteFormatter.KidsMembers(cards, parent);
        var nested := WriteLevelOne(children);
        HeadingRows(parent, children, TextOf, EscapesOf);
        group := [parent] + nested;
        processed' := processed + {parent};
      } else {
        group := [];
        assert RowLines([], TextOf) == [] && RowEscapes([], EscapesOf) == 0;
      }
    }

    /** `_format_hierarchical`: the roots with their descendants, then the groups no root heads. */
    method FormatHierarchical(cards: seq<Flashcard>, depth: nat) returns (text: Option<string>)
      modifies this
      requires AllChoicesOk(cards)
      ensures text.Some? <==> HierarchyRows(cards, depth).Some?
      ensures text.Some? ==> text.value == Join(RowLines(HierarchyRows(cards, depth).value, TextOf), "\n")
      ensures text.Some? ==> stats == old(stats).(specialCharsEscaped := old(stats).specialCharsEscaped
                                                 + RowEscapes(HierarchyRows(cards, depth).value, EscapesOf))
    {
      var hierarchy, roots := RemNoteFormatter.GroupByParent(cards);
      RemNoteFormatter.RootsMembers(cards);
      var top := WriteRoots(cards, roots, hierarchy, depth);
      if top.None? {
        return None;
      }
      ghost var topRows := RootRows(cards, roots, depth).value;
      var rest := WriteGroups(cards, hierarchy, roots);
      HierarchySplit(cards, depth, topRows, roots, TextOf, EscapesOf);
      text := Some(Join(top.value + rest, "\n"));
    }

    /** One line of `_format_flat`: the card, then its tags as `#tag` words. */
    method FlatRow(card: Flashcard) returns (line: string)
      modifies this
      requires ChoiceIndexOk(card)
      ensures line == FlatLine(card)
      ensures stats == old(stats).(specialCharsEscaped := old(stats).specialCharsEscaped + EscapesOf(card))
    {
      line := FormatCard(card);
      if card.tags != [] {
        line := line + " " + Join(RemNoteFormatter.TagWords(card.tags), " ");
      }
    }

    /** `_format_flat`: one line per card, in input order, with its tags. */
    method FormatFlat(cards: seq<Flashcard>) returns (text: string)
      modifies this
      requires AllChoicesOk(cards)
      ensures text == Join(FlatLines(cards), "\n")
      ensures stats == old(stats).(specialCharsEscaped := old(stats).specialCharsEscaped + FlatEscapes(cards))
    {
      var lines: seq<string> := [];
      for i := 0 to |cards|
        invariant lines == FlatLines(cards[..i])
        invariant stats == old(stats).(specialCharsEscaped := old(stats).specialCharsEscaped + FlatEscapes(cards[..i]))
      {
        var card := cards[i];
        FlatStep(cards, i);
        assert card in cards;
        var line := FlatRow(card);
        lines := lines + [line];
      }
      assert cards[..|cards|] == cards;
      text := Join(lines, "\n");
    }

    /** `_calculate_final_stats`: the counts of the list, keeping the escapes counted so far. */
    method CalculateFinalStats(cards: seq<Flashcard>)
      modifies this
      ensures stats == RemNoteFormatter.FinalStats(cards, old(stats).specialCharsEscaped)
    {
      stats := RemNoteFormatter.FinalStats(cards, stats.specialCharsEscaped);
    }

    /**
     * `format_cards`: reset the statistics, write the chosen layout, then count
     * the cards. When the hierarchy exhausts the recursion nothing is returned.
     */
    method FormatCards(cards: seq<Flashcard>, hierarchy: bool, depth: nat) returns (text: Option<string>)
      modifies this
      requires AllChoicesOk(cards)
      ensures text == Output(cards, hierarchy, depth)
      ensures cards == [] ==> stats == RemNoteFormatter.NoStats
      ensures cards != [] && text.Some? ==> stats == RemNoteFormatter.FinalStats(cards, LayoutEscapes(cards, hierarchy, depth))
    {
      ResetStats();
      if cards == [] {
        return Some("");
      }
      if hierarchy {
        text := FormatHierarchical(cards, depth);
        if text.None? {
          return None;
        }
      } else {
        var flat := FormatFlat(cards);
        text := Some(flat);
      }
      CalculateFinalStats(cards);
    }

    /** `_check_for_syntax_conflicts`: false at the first line holding more than one delimiter. */
    method CheckForSyntaxConflicts(text: string) returns (ok: bool)
      ensures ok <==> NoConflicts(text)
    {
      var lines := SplitOn(text, '\n');
      for k := 0 to |lines|
        invariant forall j :: 0 <= j < k ==> DelimiterCount(lines[j]) <= 1
      {
        var line := lines[k];
        var count := Count(line, "::") + Count(line, ">>") + Count(line, ";;")
                     + Count(line, "<<") + Count(line, "<>") + Count(line, "=-");
        if count > 1 {
          return false;
        }
      }
      return true;
    }
  }
}
