/**
 * The RemNote formatter used by the command line: one card becomes one line
 * of RemNote import syntax, chosen by the card's type and direction; a
 * list of cards becomes either a flat list of `# card` lines or a
 * hierarchy grouped by parent text; and the formatter keeps statistics
 * about what it formatted and how many texts its escaping changed.
 */
module RemNoteFormatter {
  import opened Wrappers
  import opened PyStr
  import opened Flashcards
  import opened Escaping

  function Esc(text: string): string {
    Escape(Canonical, text)
  }

  // ---------------------------------------------------------------------
  // One card

  /** The delimiter of a card laid out as `front <delimiter> back`; types without a row fall back to `>>`. */
  function Delimiter(t: CardType, d: CardDirection): string {
    match t
    case Concept => if d == Forward then ":>" else if d == Backward then ":<" else "::"
    case Basic => if d == Backward then "<<" else if d == Bidirectional then "<>" else ">>"
    case Descriptor => if d == Backward then ";<" else if d == Forward then ";>" else ";;"
    case _ => ">>"
  }

  /** `_format_multiline_concept`: `front :::` in triple mode, else the back on an indented line with each literal `\n` opening a new indented line. */
  function MultilineSyntax(c: Flashcard): string {
    if c.useTripleDelimiter then Esc(c.front) + " :::"
    else Esc(c.front) + " ::\n    " + Replace(Esc(c.back), "\\n", "\n    ")
  }

  /**
   * `_format_list_answer`. The fallback to `front >> back` sits after a
   * `return` inside the same branch (its `else:` is inside a comment), so a
   * card without items gets no value at all.
   */
  function ListAnswerSyntax(c: Flashcard): Option<string> {
    if c.listItems != [] then Some(Esc(c.front) + " >>1.") else None
  }

  /** `_format_multiple_choice`: `front >>A)` with at least two choices, else a basic card. */
  function MultipleChoiceSyntax(c: Flashcard): string {
    if |c.listItems| > 1 then Esc(c.front) + " >>A)" else Esc(c.front) + " >> " + Esc(c.back)
  }

  /** `_format_card`: a disabled card is `front =- back` whatever its type; a cloze card is its front, unescaped. */
  function CardSyntax(c: Flashcard): Option<string> {
    if c.direction == Disabled then Some(Esc(c.front) + " =- " + Esc(c.back))
    else
      match c.cardType
      case Cloze => Some(c.front)
      case MultilineConcept => Some(MultilineSyntax(c))
      case ListAnswer => ListAnswerSyntax(c)
      case MultipleChoice => Some(MultipleChoiceSyntax(c))
      case _ => Some(Esc(c.front) + " " + Delimiter(c.cardType, c.direction) + " " + Esc(c.back))
  }

  /** How an f-string shows the result: a missing value prints as `None`. */
  function Shown(o: Option<string>): string {
    if o.Some? then o.value else "None"
  }

  function CardText(c: Flashcard): string {
    Shown(CardSyntax(c))
  }

  /**
   * The texts `_format_card` hands to the escaper, in call order: front and
   * back always, then the front again in each special layout, and the back
   * again where that layout shows it.
   */
  function EscapedTexts(c: Flashcard): seq<string> {
    [c.front, c.back] + LayoutTexts(c)
  }

  /** The texts a special layout escapes again after front and back. */
  function LayoutTexts(c: Flashcard): seq<string> {
    if c.direction == Disabled then []
    else
      match c.cardType
      case MultilineConcept => [c.front] + (if c.useTripleDelimiter then [] else [c.back])
      case ListAnswer => [c.front]
      case MultipleChoice => [c.front] + (if |c.listItems| > 1 then [] else [c.back])
      case _ => []
  }

  /** A card's escapes are those of its front, its back and its layout's texts. */
  lemma CardParts(c: Flashcard)
    ensures CardEscapes(c) == ChangedCount(Canonical, [c.front]) + ChangedCount(Canonical, [c.back])
                              + ChangedCount(Canonical, LayoutTexts(c))
  {
    ChangedCountAppend(Canonical, [c.front], [c.back]);
    assert [c.front] + [c.back] == [c.front, c.back];
    ChangedCountAppend(Canonical, [c.front, c.back], LayoutTexts(c));
  }

  function CardEscapes(c: Flashcard): nat {
    ChangedCount(Canonical, EscapedTexts(c))
  }

  /** A disabled card of any type, cloze and the special layouts included, is `front =- back`. */
  lemma DisabledWins(c: Flashcard)
    requires c.direction == Disabled
    ensures CardText(c) == Esc(c.front) + " =- " + Esc(c.back)
    ensures CardEscapes(c) == ChangedCount(Canonical, [c.front, c.back])
  {
    assert EscapedTexts(c) == [c.front, c.back];
  }

  /** A cloze card that is not disabled shows its front exactly, unescaped, whether or not it holds a deletion. */
  lemma ClozeVerbatim(c: Flashcard)
    requires c.cardType == Cloze && c.direction != Disabled
    ensures CardText(c) == c.front
  {
  }

  /** Only a list answer without items, not disabled, renders as `None`. */
  lemma NoneOnlyForEmptyList(c: Flashcard)
    ensures CardSyntax(c).None? <==> c.direction != Disabled && c.cardType == ListAnswer && c.listItems == []
  {
  }

  /** The types laid out as `front <delimiter> back`. */
  predicate TableDriven(t: CardType) {
    t == Concept || t == Basic || t == Descriptor || t == MultilineBasic || t == MultilineDescriptor
  }

  /** With plain texts, a disabled or table-driven card is exactly `front <delimiter> back`. */
  lemma PlainCard(c: Flashcard)
    requires Plain(c.front) && Plain(c.back) && (c.direction == Disabled || TableDriven(c.cardType))
    ensures c.direction == Disabled ==> CardText(c) == c.front + " =- " + c.back
    ensures c.direction != Disabled ==> CardText(c) == c.front + " " + Delimiter(c.cardType, c.direction) + " " + c.back
  {
    PlainUnchanged(Canonical, c.front);
    PlainUnchanged(Canonical, c.back);
  }

  /** The texts of the formatter's feature test hold no token character. */
  lemma ConceptTextsPlain()
    ensures Plain("Lambda Architecture") && Plain("Data processing pattern")
  {
  }

  lemma DisabledTextsPlain()
    ensures Plain("Disabled Topic") && Plain("Not for flashcards")
  {
  }

  lemma ShortTextPlain(t: string)
    requires t == "Question" || t == "Answer" || t == "Value" || t == "Attribute"
    ensures Plain(t)
  {
  }

  /** The concept examples of the formatter's feature test. */
  lemma ConceptExamples(c: Flashcard)
    requires c.cardType == Concept && c.direction != Disabled
    requires c.front == "Lambda Architecture" && c.back == "Data processing pattern"
    ensures CardText(c) == c.front + " " + (if c.direction == Forward then ":>" else if c.direction == Backward then ":<" else "::") + " " + c.back
  {
    ConceptTextsPlain();
    PlainCard(c);
  }

  /** The disabled example of the formatter's feature test. */
  lemma DisabledExample(c: Flashcard)
    requires c.cardType == Concept && c.direction == Disabled && c.front == "Disabled Topic" && c.back == "Not for flashcards"
    ensures CardText(c) == c.front + " =- " + c.back
  {
    DisabledTextsPlain();
    PlainCard(c);
  }

  /** The basic and descriptor examples of the formatter's feature test. */
  lemma BasicDescriptorExamples(c: Flashcard)
    requires c.direction == Backward || (c.cardType == Basic && c.direction == Bidirectional)
    requires c.cardType == Basic || c.cardType == Descriptor
    requires c.front in ["Question", "Answer", "Value"] && c.back in ["Question", "Answer", "Attribute"]
    ensures CardText(c) == c.front + " " + (if c.cardType == Descriptor then ";<" else if c.direction == Backward then "<<" else "<>") + " " + c.back
  {
    ShortTextPlain(c.front);
    ShortTextPlain(c.back);
    PlainCard(c);
  }

  /**
   * Default multiline mode: each literal `\n` pair in the escaped back
   * becomes a line break and four spaces, three characters more, and a back
   * without one is shown as it is.
   */
  lemma MultilineLayout(c: Flashcard)
    requires c.cardType == MultilineConcept && c.direction != Disabled && !c.useTripleDelimiter
    ensures |CardText(c)| == |Esc(c.front)| + 8 + |Esc(c.back)| + 3 * Count(Esc(c.back), "\\n")
    ensures !Contains(Esc(c.back), "\\n") ==> CardText(c) == Esc(c.front) + " ::\n    " + Esc(c.back)
  {
    ReplaceLength(Esc(c.back), "\\n", "\n    ");
    assert |"\n    "| - |"\\n"| == 3;
    if !Contains(Esc(c.back), "\\n") {
      ReplaceAbsent(Esc(c.back), "\\n", "\n    ");
    }
  }

  // ---------------------------------------------------------------------
  // Hierarchical and flat layout

  /** The cards in input order whose parent is `p`: `hierarchy.get(p, [])`. Empty text is never a parent. */
  function Kids(cards: seq<Flashcard>, p: string): seq<Flashcard> {
    if cards == [] then []
    else
      var c := cards[|cards| - 1];
      Kids(cards[..|cards| - 1], p) + (if p != "" && c.parent == p then [c] else [])
  }

  /** The cards without a parent, in input order. */
  function Roots(cards: seq<Flashcard>): seq<Flashcard> {
    if cards == [] then []
    else
      var c := cards[|cards| - 1];
      Roots(cards[..|cards| - 1]) + (if c.parent == "" then [c] else [])
  }

  /** The grouping dictionary's keys in insertion order: each non-empty parent at its first occurrence. */
  function ParentKeys(cards: seq<Flashcard>): seq<string> {
    if cards == [] then []
    else
      var c := cards[|cards| - 1];
      var keys := ParentKeys(cards[..|cards| - 1]);
      keys + (if c.parent != "" && c.parent !in keys then [c.parent] else [])
  }

  /** One output line: a card at the top or one level down, or a bare parent heading. */
  datatype Entry = CardLine(indented: bool, card: Flashcard) | Header(name: string)

  /** The line of an entry, given how a card is shown. */
  function EntryText(e: Entry, show: Flashcard -> string): string {
    match e
    case CardLine(indented, c) => (if indented then "    # " else "# ") + show(c)
    case Header(p) => "# " + p
  }

  function EntryLines(es: seq<Entry>, show: Flashcard -> string): seq<string> {
    if es == [] then [] else EntryLines(es[..|es| - 1], show) + [EntryText(es[|es| - 1], show)]
  }

  /** The escapes made while writing the entries: each card line formats its card once more. */
  function EntryEscapes(es: seq<Entry>, cost: Flashcard -> nat): nat {
    if es == [] then 0
    else
      var e := es[|es| - 1];
      EntryEscapes(es[..|es| - 1], cost) + if e.CardLine? then cost(e.card) else 0
  }

  function Nested(cs: seq<Flashcard>): seq<Entry> {
    if cs == [] then [] else Nested(cs[..|cs| - 1]) + [CardLine(true, cs[|cs| - 1])]
  }

  /** A root card, then, when its front or back is a parent, the children of both one level down. */
  function RootBlock(r: Flashcard, cards: seq<Flashcard>): seq<Entry> {
    var keys := ParentKeys(cards);
    [CardLine(false, r)]
    + if r.front in keys || r.back in keys then Nested(Kids(cards, r.front) + Kids(cards, r.back)) else []
  }

  function RootSection(roots: seq<Flashcard>, cards: seq<Flashcard>): seq<Entry> {
    if roots == [] then []
    else RootSection(roots[..|roots| - 1], cards) + RootBlock(roots[|roots| - 1], cards)
  }

  /** Every parent, in key order, as a heading with its children one level down. */
  function ParentSection(keys: seq<string>, cards: seq<Flashcard>): seq<Entry> {
    if keys == [] then []
    else ParentSection(keys[..|keys| - 1], cards) + [Header(keys[|keys| - 1])] + Nested(Kids(cards, keys[|keys| - 1]))
  }

  /** `_format_hierarchical`: the root section, then every parent group again, since no parent counts as processed. */
  function Hierarchy(cards: seq<Flashcard>): seq<Entry> {
    RootSection(Roots(cards), cards) + ParentSection(ParentKeys(cards), cards)
  }

  /** The tags as `#tag` words separated by spaces. */
  function TagWords(tags: seq<string>): seq<string> {
    if tags == [] then [] else TagWords(tags[..|tags| - 1]) + ["#" + tags[|tags| - 1]]
  }

  /** A line of `_format_flat`: the card, then its tags when it has any. */
  function FlatLine(c: Flashcard, show: Flashcard -> string): string {
    "# " + if c.tags != [] then show(c) + " " + Join(TagWords(c.tags), " ") else show(c)
  }

  function FlatLines(cards: seq<Flashcard>, show: Flashcard -> string): seq<string> {
    if cards == [] then [] else FlatLines(cards[..|cards| - 1], show) + [FlatLine(cards[|cards| - 1], show)]
  }

  function FlatEscapes(cards: seq<Flashcard>, cost: Flashcard -> nat): nat {
    if cards == [] then 0 else FlatEscapes(cards[..|cards| - 1], cost) + cost(cards[|cards| - 1])
  }

  /** The flat layout grows by one line, and one card's escapes, per card. */
  lemma FlatStep(cards: seq<Flashcard>, i: nat, show: Flashcard -> string, cost: Flashcard -> nat)
    requires i < |cards|
    ensures FlatLines(cards[..i + 1], show) == FlatLines(cards[..i], show) + [FlatLine(cards[i], show)]
    ensures FlatEscapes(cards[..i + 1], cost) == FlatEscapes(cards[..i], cost) + cost(cards[i])
  {
    assert cards[..i + 1][..i] == cards[..i];
  }

  /** The flat layout holds exactly one line per card, in input order. */
  lemma {:induction false} FlatLinesByIndex(cards: seq<Flashcard>, show: Flashcard -> string)
    ensures |FlatLines(cards, show)| == |cards|
    ensures forall i :: 0 <= i < |cards| ==> FlatLines(cards, show)[i] == FlatLine(cards[i], show)
  {
    if cards != [] {
      var pre := cards[..|cards| - 1];
      FlatLinesByIndex(pre, show);
      assert forall i :: 0 <= i < |pre| ==> pre[i] == cards[i];
    }
  }

  /** The entries are written one line each, in order. */
  lemma {:induction false} EntryLinesByIndex(es: seq<Entry>, show: Flashcard -> string)
    ensures |EntryLines(es, show)| == |es|
    ensures forall i :: 0 <= i < |es| ==> EntryLines(es, show)[i] == EntryText(es[i], show)
  {
    if es != [] {
      var pre := es[..|es| - 1];
      EntryLinesByIndex(pre, show);
      assert forall i :: 0 <= i < |pre| ==> pre[i] == es[i];
    }
  }

  /** Nesting a list of cards costs the same escapes as writing them flat. */
  lemma {:induction false} NestedEscapes(cs: seq<Flashcard>, cost: Flashcard -> nat)
    ensures EntryEscapes(Nested(cs), cost) == FlatEscapes(cs, cost)
  {
    if cs != [] {
      var pre := cs[..|cs| - 1];
      NestedEscapes(pre, cost);
      WriteEntry(Nested(pre), CardLine(true, cs[|cs| - 1]), (c: Flashcard) => "", cost);
    }
  }

  /** The escapes counted while writing the chosen layout. */
  function LayoutEscapes(cards: seq<Flashcard>, hierarchy: bool): nat {
    if hierarchy then EntryEscapes(Hierarchy(cards), CardEscapes) else FlatEscapes(cards, CardEscapes)
  }

  /** `format_cards`: nothing for no cards, else the lines of the chosen layout joined by line breaks. */
  function Output(cards: seq<Flashcard>, hierarchy: bool): string {
    if cards == [] then ""
    else if hierarchy then Join(EntryLines(Hierarchy(cards), CardText), "\n")
    else Join(FlatLines(cards, CardText), "\n")
  }

  // ---------------------------------------------------------------------
  // Grouping

  /** The cards grouped under `p` are exactly the cards whose parent is the non-empty text `p`. */
  lemma {:induction false} KidsMembers(cards: seq<Flashcard>, p: string)
    ensures forall x :: x in Kids(cards, p) <==> x in cards && x.parent == p && p != ""
  {
    if cards != [] {
      var pre := cards[..|cards| - 1];
      KidsMembers(pre, p);
      assert cards == pre + [cards[|cards| - 1]];
    }
  }

  lemma {:induction false} RootsMembers(cards: seq<Flashcard>)
    ensures forall x :: x in Roots(cards) <==> x in cards && x.parent == ""
  {
    if cards != [] {
      var pre := cards[..|cards| - 1];
      RootsMembers(pre);
      assert cards == pre + [cards[|cards| - 1]];
    }
  }

  /** A text is a key of the grouping exactly when some card is grouped under it. */
  lemma {:induction false} KidsKeys(cards: seq<Flashcard>, p: string)
    ensures Kids(cards, p) != [] <==> p in ParentKeys(cards)
  {
    if cards != [] {
      KidsKeys(cards[..|cards| - 1], p);
    }
  }

  /** The keys are distinct, non-empty, and are the parents the cards name. */
  lemma {:induction false} ParentKeysDistinct(cards: seq<Flashcard>)
    ensures forall i, j :: 0 <= i < j < |ParentKeys(cards)| ==> ParentKeys(cards)[i] != ParentKeys(cards)[j]
    ensures forall p :: p in ParentKeys(cards) <==> p in ParentSet(cards)
  {
    if cards != [] {
      var pre := cards[..|cards| - 1];
      ParentKeysDistinct(pre);
      assert cards == pre + [cards[|cards| - 1]];
    }
  }

  /** The distinct non-empty parents, as `_calculate_final_stats` collects them. */
  function ParentSet(cards: seq<Flashcard>): set<string> {
    set c | c in cards && c.parent != "" :: c.parent
  }

  lemma {:induction false} DistinctCardinality(keys: seq<string>)
    requires forall i, j :: 0 <= i < j < |keys| ==> keys[i] != keys[j]
    ensures |set p | p in keys| == |keys|
  {
    if keys != [] {
      var pre := keys[..|keys| - 1];
      DistinctCardinality(pre);
      assert keys == pre + [keys[|keys| - 1]];
      assert (set p | p in keys) == (set p | p in pre) + {keys[|keys| - 1]};
    }
  }

  /** `hierarchical_levels` counts the parent headings the hierarchical layout writes. */
  lemma LevelsAreHeadings(cards: seq<Flashcard>)
    ensures |ParentSet(cards)| == |ParentKeys(cards)|
  {
    ParentKeysDistinct(cards);
    DistinctCardinality(ParentKeys(cards));
    assert (set p | p in ParentKeys(cards)) == ParentSet(cards);
  }

  // ---------------------------------------------------------------------
  // What the hierarchical layout writes

  lemma {:induction false} NestedShape(cs: seq<Flashcard>)
    ensures |Nested(cs)| == |cs|
    ensures forall k :: 0 <= k < |cs| ==> Nested(cs)[k] == CardLine(true, cs[k])
  {
    if cs != [] {
      NestedShape(cs[..|cs| - 1]);
    }
  }

  lemma {:induction false} NestedAppend(a: seq<Flashcard>, b: seq<Flashcard>)
    ensures Nested(a + b) == Nested(a) + Nested(b)
  {
    NestedShape(a);
    NestedShape(b);
    NestedShape(a + b);
  }

  /** How many children the given parent groups hold together. */
  function KidsTotal(keys: seq<string>, cards: seq<Flashcard>): nat {
    if keys == [] then 0 else KidsTotal(keys[..|keys| - 1], cards) + |Kids(cards, keys[|keys| - 1])|
  }

  lemma {:induction false} ParentSectionLength(keys: seq<string>, cards: seq<Flashcard>)
    ensures |ParentSection(keys, cards)| == |keys| + KidsTotal(keys, cards)
  {
    if keys != [] {
      ParentSectionLength(keys[..|keys| - 1], cards);
      NestedShape(Kids(cards, keys[|keys| - 1]));
    }
  }

  /** A further card adds one child to the groups exactly when its parent is one of the keys. */
  lemma {:induction false} KidsTotalStep(keys: seq<string>, pre: seq<Flashcard>, c: Flashcard)
    requires forall i, j :: 0 <= i < j < |keys| ==> keys[i] != keys[j]
    ensures KidsTotal(keys, pre + [c]) == KidsTotal(keys, pre) + if c.parent != "" && c.parent in keys then 1 else 0
  {
    assert (pre + [c])[..|pre|] == pre;
    if keys != [] {
      var ks := keys[..|keys| - 1];
      KidsTotalStep(ks, pre, c);
      assert keys == ks + [keys[|keys| - 1]];
    }
  }

  /** Every card with a parent sits in exactly one group. */
  lemma {:induction false} KidsTotalAll(cards: seq<Flashcard>)
    ensures KidsTotal(ParentKeys(cards), cards) + |Roots(cards)| == |cards|
  {
    if cards != [] {
      var pre := cards[..|cards| - 1];
      var c := cards[|cards| - 1];
      var keys := ParentKeys(pre);
      assert cards == pre + [c];
      KidsTotalAll(pre);
      ParentKeysDistinct(pre);
      KidsTotalStep(keys, pre, c);
      var p := c.parent;
      if p != "" && p !in keys {
        KidsKeys(pre, p);
        assert ParentKeys(cards) == keys + [p];
        assert (keys + [p])[..|keys|] == keys;
        assert KidsTotal(keys + [p], cards) == KidsTotal(keys, cards) + |Kids(cards, p)|;
        assert Kids(cards, p) == Kids(pre, p) + [c];
        assert Roots(cards) == Roots(pre);
      } else if p != "" {
        assert ParentKeys(cards) == keys;
        assert Roots(cards) == Roots(pre);
      } else {
        assert ParentKeys(cards) == keys;
        assert Roots(cards) == Roots(pre) + [c];
      }
    }
  }

  /** The parent section writes one heading per parent and every card that has a parent once. */
  lemma ParentSectionCount(cards: seq<Flashcard>)
    ensures |ParentSection(ParentKeys(cards), cards)| == |ParentKeys(cards)| + |cards| - |Roots(cards)|
  {
    ParentSectionLength(ParentKeys(cards), cards);
    KidsTotalAll(cards);
  }

  lemma {:induction false} RootSectionHas(roots: seq<Flashcard>, cards: seq<Flashcard>, r: Flashcard, e: Entry)
    requires r in roots && e in RootBlock(r, cards)
    ensures e in RootSection(roots, cards)
  {
    var pre := roots[..|roots| - 1];
    if r != roots[|roots| - 1] {
      assert roots == pre + [roots[|roots| - 1]];
      RootSectionHas(pre, cards, r, e);
    }
  }

  lemma {:induction false} ParentSectionHas(keys: seq<string>, cards: seq<Flashcard>, p: string, x: Flashcard)
    requires p in keys && x in Kids(cards, p)
    ensures CardLine(true, x) in ParentSection(keys, cards) && Header(p) in ParentSection(keys, cards)
  {
    var pre := keys[..|keys| - 1];
    if p == keys[|keys| - 1] {
      NestedShape(Kids(cards, p));
      var k :| 0 <= k < |Kids(cards, p)| && Kids(cards, p)[k] == x;
      assert Nested(Kids(cards, p))[k] == CardLine(true, x);
    } else {
      assert keys == pre + [keys[|keys| - 1]];
      ParentSectionHas(pre, cards, p, x);
    }
  }

  /** Every card is written: a card without a parent as a root line, any other under its parent's heading. */
  lemma EveryCardWritten(cards: seq<Flashcard>, c: Flashcard)
    requires c in cards
    ensures c.parent == "" ==> CardLine(false, c) in RootSection(Roots(cards), cards)
    ensures c.parent != "" ==> Header(c.parent) in ParentSection(ParentKeys(cards), cards)
                               && CardLine(true, c) in ParentSection(ParentKeys(cards), cards)
  {
    if c.parent == "" {
      RootsMembers(cards);
      RootSectionHas(Roots(cards), cards, c, CardLine(false, c));
    } else {
      KidsMembers(cards, c.parent);
      KidsKeys(cards, c.parent);
      ParentSectionHas(ParentKeys(cards), cards, c.parent, c);
    }
  }

  /** A child of a root card's front is written in the root section. */
  lemma ChildUnderRoot(cards: seq<Flashcard>, r: Flashcard, c: Flashcard)
    requires r in cards && r.parent == "" && c in cards && c.parent != "" && c.parent == r.front
    ensures CardLine(true, c) in RootSection(Roots(cards), cards)
  {
    assert r in Roots(cards) by { RootsMembers(cards); }
    assert c in Kids(cards, r.front) by { KidsMembers(cards, r.front); }
    assert r.front in ParentKeys(cards) by { KidsKeys(cards, r.front); }
    var kids := Kids(cards, r.front) + Kids(cards, r.back);
    NestedHas(kids, c);
    assert RootBlock(r, cards) == [CardLine(false, r)] + Nested(kids);
    RootSectionHas(Roots(cards), cards, r, CardLine(true, c));
  }

  lemma NestedHas(cs: seq<Flashcard>, x: Flashcard)
    requires x in cs
    ensures CardLine(true, x) in Nested(cs)
  {
    NestedShape(cs);
    var k :| 0 <= k < |cs| && cs[k] == x;
    assert Nested(cs)[k] == CardLine(true, x);
  }

  lemma TwoPlaces(a: seq<Entry>, b: seq<Entry>, e: Entry)
    requires e in a && e in b
    ensures exists i, j :: 0 <= i < j < |a + b| && (a + b)[i] == e && (a + b)[j] == e
  {
    var i :| 0 <= i < |a| && a[i] == e;
    var j :| 0 <= j < |b| && b[j] == e;
    assert (a + b)[i] == e && (a + b)[|a| + j] == e;
  }

  /**
   * A child whose parent is a root card's front is written twice: under the
   * root and again under its parent's heading.
   */
  lemma ChildWrittenTwice(cards: seq<Flashcard>, r: Flashcard, c: Flashcard)
    requires r in cards && r.parent == "" && c in cards && c.parent != "" && c.parent == r.front
    ensures exists i, j :: 0 <= i < j < |Hierarchy(cards)| && Hierarchy(cards)[i] == CardLine(true, c)
                                                         && Hierarchy(cards)[j] == CardLine(true, c)
  {
    var a := RootSection(Roots(cards), cards);
    var b := ParentSection(ParentKeys(cards), cards);
    ChildUnderRoot(cards, r, c);
    EveryCardWritten(cards, c);
    TwoPlaces(a, b, CardLine(true, c));
    var i, j :| 0 <= i < j < |a + b| && (a + b)[i] == CardLine(true, c) && (a + b)[j] == CardLine(true, c);
    assert Hierarchy(cards) == a + b;
  }

  // ---------------------------------------------------------------------
  // Statistics and the formatter object

  /** `FormattingStats`; the per-type and per-direction counts are keyed by the enumerations' values. */
  datatype Stats = Stats(
    totalCards: nat,
    cardsByType: map<string, nat>,
    cardsByDirection: map<string, nat>,
    hierarchicalLevels: nat,
    specialCharsEscaped: nat)

  const NoStats := Stats(0, map[], map[], 0, 0)

  /** `dict(Counter(keys))`: each key that occurs, with how often it occurs. */
  function Tally(keys: seq<string>): (counts: map<string, nat>)
    ensures forall k :: k in counts <==> k in keys
    ensures forall k :: k in counts ==> counts[k] == multiset(keys)[k]
  {
    if keys == [] then map[]
    else
      var pre := keys[..|keys| - 1];
      var k := keys[|keys| - 1];
      var rest := Tally(pre);
      assert keys == pre + [k];
      assert multiset(keys) == multiset(pre) + multiset{k};
      rest[k := (if k in rest then rest[k] else 0) + 1]
  }

  function TypeValues(cards: seq<Flashcard>): seq<string> {
    if cards == [] then [] else TypeValues(cards[..|cards| - 1]) + [TypeValue(cards[|cards| - 1].cardType)]
  }

  function DirectionValues(cards: seq<Flashcard>): seq<string> {
    if cards == [] then [] else DirectionValues(cards[..|cards| - 1]) + [DirectionValue(cards[|cards| - 1].direction)]
  }

  /** `_calculate_final_stats`, keeping the escape count gathered while formatting. */
  function FinalStats(cards: seq<Flashcard>, escaped: nat): Stats {
    Stats(|cards|, Tally(TypeValues(cards)), Tally(DirectionValues(cards)), |ParentSet(cards)|, escaped)
  }

  /** Writing one more entry adds its line and the escapes of its card. */
  lemma WriteEntry(es: seq<Entry>, e: Entry, show: Flashcard -> string, cost: Flashcard -> nat)
    ensures EntryLines(es + [e], show) == EntryLines(es, show) + [EntryText(e, show)]
    ensures EntryEscapes(es + [e], cost) == EntryEscapes(es, cost) + if e.CardLine? then cost(e.card) else 0
  {
    assert (es + [e])[..|es|] == es;
  }

  lemma {:induction false} EntriesAppend(a: seq<Entry>, b: seq<Entry>, show: Flashcard -> string, cost: Flashcard -> nat)
    ensures EntryLines(a + b, show) == EntryLines(a, show) + EntryLines(b, show)
    ensures EntryEscapes(a + b, cost) == EntryEscapes(a, cost) + EntryEscapes(b, cost)
  {
    LinesAppend(a, b, show);
    EscapesAppend(a, b, cost);
  }

  lemma {:induction false} LinesAppend(a: seq<Entry>, b: seq<Entry>, show: Flashcard -> string)
    ensures EntryLines(a + b, show) == EntryLines(a, show) + EntryLines(b, show)
    decreases |b|
  {
    if b == [] {
      assert a + b == a;
    } else {
      var pre := b[..|b| - 1];
      LinesAppend(a, pre, show);
      assert (a + b)[..|a + b| - 1] == a + pre;
      assert (a + b)[|a + b| - 1] == b[|b| - 1];
    }
  }

  lemma {:induction false} EscapesAppend(a: seq<Entry>, b: seq<Entry>, cost: Flashcard -> nat)
    ensures EntryEscapes(a + b, cost) == EntryEscapes(a, cost) + EntryEscapes(b, cost)
    decreases |b|
  {
    if b == [] {
      assert a + b == a;
    } else {
      var pre := b[..|b| - 1];
      EscapesAppend(a, pre, cost);
      assert (a + b)[..|a + b| - 1] == a + pre;
      assert (a + b)[|a + b| - 1] == b[|b| - 1];
    }
  }

  function Get(h: map<string, seq<Flashcard>>, p: string): seq<Flashcard> {
    if p in h then h[p] else []
  }

  /** The grouping dictionary holds, for every parent, its cards in input order, and nothing else. */
  ghost predicate Grouping(cards: seq<Flashcard>, hierarchy: map<string, seq<Flashcard>>) {
    (forall p :: p in hierarchy <==> p in ParentKeys(cards))
    && forall p :: Get(hierarchy, p) == Kids(cards, p)
  }

  /** The children a root block nests, read off the grouping dictionary as `_format_hierarchical` does. */
  function RootChildren(r: Flashcard, hierarchy: map<string, seq<Flashcard>>): seq<Entry> {
    if r.front in hierarchy || r.back in hierarchy then Nested(Get(hierarchy, r.front) + Get(hierarchy, r.back)) else []
  }

  lemma RootBlockGrouped(cards: seq<Flashcard>, r: Flashcard, hierarchy: map<string, seq<Flashcard>>)
    requires Grouping(cards, hierarchy)
    ensures RootBlock(r, cards) == [CardLine(false, r)] + RootChildren(r, hierarchy)
  {
    assert Get(hierarchy, r.front) == Kids(cards, r.front) && Get(hierarchy, r.back) == Kids(cards, r.back);
    assert r.front in hierarchy <==> r.front in ParentKeys(cards);
    assert r.back in hierarchy <==> r.back in ParentKeys(cards);
  }

  /** A root block is the root's own line followed by the lines of its nested children. */
  lemma RootBlockEntries(cards: seq<Flashcard>, r: Flashcard, hierarchy: map<string, seq<Flashcard>>,
                         show: Flashcard -> string, cost: Flashcard -> nat)
    requires Grouping(cards, hierarchy)
    ensures EntryLines(RootBlock(r, cards), show)
            == [EntryText(CardLine(false, r), show)] + EntryLines(RootChildren(r, hierarchy), show)
    ensures EntryEscapes(RootBlock(r, cards), cost) == cost(r) + EntryEscapes(RootChildren(r, hierarchy), cost)
  {
    assert RootBlock(r, cards) == [CardLine(false, r)] + RootChildren(r, hierarchy) by {
      RootBlockGrouped(cards, r, hierarchy);
    }
    LeadEntry(CardLine(false, r), RootChildren(r, hierarchy), show, cost);
  }

  /** An entry in front of others: its own line, then theirs. */
  lemma LeadEntry(e: Entry, rest: seq<Entry>, show: Flashcard -> string, cost: Flashcard -> nat)
    ensures EntryLines([e] + rest, show) == [EntryText(e, show)] + EntryLines(rest, show)
    ensures EntryEscapes([e] + rest, cost) == (if e.CardLine? then cost(e.card) else 0) + EntryEscapes(rest, cost)
  {
    WriteEntry([], e, show, cost);
    assert [] + [e] == [e];
    EntriesAppend([e], rest, show, cost);
  }

  /** The key at position `i` did not occur before it. */
  lemma FreshKey(cards: seq<Flashcard>, i: nat)
    requires i < |ParentKeys(cards)|
    ensures ParentKeys(cards)[i] !in ParentKeys(cards)[..i]
  {
    ParentKeysDistinct(cards);
  }

  /** A parent group: the heading line, then its children one level down. */
  lemma GroupEntries(parent: string, kids: seq<Flashcard>, show: Flashcard -> string, cost: Flashcard -> nat)
    ensures EntryLines([Header(parent)] + Nested(kids), show) == ["# " + parent] + EntryLines(Nested(kids), show)
    ensures EntryEscapes([Header(parent)] + Nested(kids), cost) == EntryEscapes(Nested(kids), cost)
  {
    WriteEntry([], Header(parent), show, cost);
    assert [] + [Header(parent)] == [Header(parent)];
    EntriesAppend([Header(parent)], Nested(kids), show, cost);
  }

  /** The nested children grow by one indented line, and one card's escapes, per child. */
  lemma NestedStep(cs: seq<Flashcard>, k: nat, show: Flashcard -> string, cost: Flashcard -> nat)
    requires k < |cs|
    ensures EntryLines(Nested(cs[..k + 1]), show) == EntryLines(Nested(cs[..k]), show) + [EntryText(CardLine(true, cs[k]), show)]
    ensures EntryEscapes(Nested(cs[..k + 1]), cost) == EntryEscapes(Nested(cs[..k]), cost) + cost(cs[k])
  {
    assert cs[..k + 1][..k] == cs[..k];
    WriteEntry(Nested(cs[..k]), CardLine(true, cs[k]), show, cost);
  }

  /** The root section grows by one root's block at a time. */
  lemma RootSectionStep(roots: seq<Flashcard>, i: nat, cards: seq<Flashcard>,
                        show: Flashcard -> string, cost: Flashcard -> nat)
    requires i < |roots|
    ensures EntryLines(RootSection(roots[..i + 1], cards), show)
              == EntryLines(RootSection(roots[..i], cards), show) + EntryLines(RootBlock(roots[i], cards), show)
    ensures EntryEscapes(RootSection(roots[..i + 1], cards), cost)
              == EntryEscapes(RootSection(roots[..i], cards), cost) + EntryEscapes(RootBlock(roots[i], cards), cost)
  {
    assert roots[..i + 1][..i] == roots[..i];
    EntriesAppend(RootSection(roots[..i], cards), RootBlock(roots[i], cards), show, cost);
  }

  /** The parent section grows by one group per key. */
  lemma ParentSectionStep(keys: seq<string>, i: nat, cards: seq<Flashcard>,
                          show: Flashcard -> string, cost: Flashcard -> nat)
    requires i < |keys|
    ensures var group := [Header(keys[i])] + Nested(Kids(cards, keys[i]));
            EntryLines(ParentSection(keys[..i + 1], cards), show)
              == EntryLines(ParentSection(keys[..i], cards), show) + EntryLines(group, show)
            && EntryEscapes(ParentSection(keys[..i + 1], cards), cost)
              == EntryEscapes(ParentSection(keys[..i], cards), cost) + EntryEscapes(group, cost)
  {
    var group := [Header(keys[i])] + Nested(Kids(cards, keys[i]));
    assert keys[..i + 1][..i] == keys[..i];
    assert ParentSection(keys[..i + 1], cards)
        == ParentSection(keys[..i], cards) + [Header(keys[i])] + Nested(Kids(cards, keys[i]));
    AppendAssoc(ParentSection(keys[..i], cards), [Header(keys[i])], Nested(Kids(cards, keys[i])));
    EntriesAppend(ParentSection(keys[..i], cards), group, show, cost);
  }

  /** The keys in `order` are distinct and each maps to its cards in the grouping dictionary. */
  ghost predicate Keyed(cards: seq<Flashcard>, hierarchy: map<string, seq<Flashcard>>, order: seq<string>) {
    && (forall k :: 0 <= k < |order| ==> order[k] in hierarchy && hierarchy[order[k]] == Kids(cards, order[k]))
    && (forall j, k :: 0 <= j < k < |order| ==> order[j] != order[k])
  }

  lemma GroupingKeyed(cards: seq<Flashcard>, hierarchy: map<string, seq<Flashcard>>)
    requires Grouping(cards, hierarchy)
    ensures Keyed(cards, hierarchy, ParentKeys(cards))
  {
    ParentKeysDistinct(cards);
    forall k | 0 <= k < |ParentKeys(cards)|
      ensures ParentKeys(cards)[k] in hierarchy && hierarchy[ParentKeys(cards)[k]] == Kids(cards, ParentKeys(cards)[k])
    {
      assert Get(hierarchy, ParentKeys(cards)[k]) == Kids(cards, ParentKeys(cards)[k]);
    }
  }

  /** One more card extends its parent's list, or leaves the grouping as it is when it has no parent. */
  lemma GroupStep(pre: seq<Flashcard>, c: Flashcard, hierarchy: map<string, seq<Flashcard>>)
    requires Grouping(pre, hierarchy)
    ensures c.parent != "" ==> Grouping(pre + [c], hierarchy[c.parent := Get(hierarchy, c.parent) + [c]])
    ensures c.parent == "" ==> Grouping(pre + [c], hierarchy)
  {
    var cards := pre + [c];
    assert cards[..|cards| - 1] == pre;
    var h := if c.parent != "" then hierarchy[c.parent := Get(hierarchy, c.parent) + [c]] else hierarchy;
    forall p
      ensures Get(h, p) == Kids(cards, p)
    {
      assert Kids(cards, p) == Kids(pre, p) + if p != "" && c.parent == p then [c] else [];
    }
    forall p
      ensures p in h <==> p in ParentKeys(cards)
    {
      assert p in ParentKeys(cards) <==> p in ParentKeys(pre) || (c.parent != "" && p == c.parent);
    }
  }

  /** The grouping loop of `_format_hierarchical`: a card with a parent joins its parent's list, any other card the roots. */
  method GroupByParent(cards: seq<Flashcard>) returns (hierarchy: map<string, seq<Flashcard>>, roots: seq<Flashcard>)
    ensures Grouping(cards, hierarchy) && roots == Roots(cards)
  {
    hierarchy := map[];
    roots := [];
    for i := 0 to |cards|
      invariant Grouping(cards[..i], hierarchy) && roots == Roots(cards[..i])
    {
      assert cards[..i + 1] == cards[..i] + [cards[i]];
      hierarchy, roots := GroupCard(cards[..i], cards[i], hierarchy, roots);
    }
    assert cards[..|cards|] == cards;
  }

  /** One turn of the grouping loop. */
  method GroupCard(pre: seq<Flashcard>, c: Flashcard, hierarchy: map<string, seq<Flashcard>>, roots: seq<Flashcard>)
    returns (hierarchy': map<string, seq<Flashcard>>, roots': seq<Flashcard>)
    requires Grouping(pre, hierarchy) && roots == Roots(pre)
    ensures Grouping(pre + [c], hierarchy') && roots' == Roots(pre + [c])
  {
    assert (pre + [c])[..|pre|] == pre;
    GroupStep(pre, c, hierarchy);
    if c.parent != "" {
      hierarchy', roots' := hierarchy[c.parent := Get(hierarchy, c.parent) + [c]], roots;
    } else {
      hierarchy', roots' := hierarchy, roots + [c];
    }
  }

  class Formatter {
    var stats: Stats

    constructor()
      ensures stats == NoStats
    {
      stats := NoStats;
    }

    method ResetStats()
      modifies this
      ensures stats == NoStats
    {
      stats := NoStats;
    }

    /** `_escape_special_chars`: the statistic grows by one when the text changed length, that is, changed. */
    method EscapeSpecialChars(text: string) returns (escaped: string)
      modifies this
      ensures escaped == Esc(text)
      ensures stats == old(stats).(specialCharsEscaped := old(stats).specialCharsEscaped + ChangedCount(Canonical, [text]))
    {
      assert ChangedCount(Canonical, [text]) == if Esc(text) != text then 1 else 0 by {
        assert [text][..0] == [];
      }
      if text == [] {
        return text;
      }
      escaped := EscapeText(Canonical, text);
      EscapeChangedIffLonger(Canonical, text);
      if |escaped| != |text| {
        stats := stats.(specialCharsEscaped := stats.specialCharsEscaped + 1);
      }
    }

    method FormatCloze(c: Flashcard) returns (text: string)
      ensures text == c.front
    {
      text := c.front;
      if !HasClozeSpan(text) {
        return text;
      }
      return text;
    }

    method FormatMultilineConcept(c: Flashcard) returns (text: string)
      modifies this
      ensures text == MultilineSyntax(c)
      ensures stats == old(stats).(specialCharsEscaped := old(stats).specialCharsEscaped
                                   + ChangedCount(Canonical, [c.front] + if c.useTripleDelimiter then [] else [c.back]))
    {
      var front := EscapeSpecialChars(c.front);
      if c.useTripleDelimiter {
        return front + " :::";
      }
      var back := EscapeSpecialChars(c.back);
      ChangedCountAppend(Canonical, [c.front], [c.back]);
      text := front + " ::\n    " + Replace(back, "\\n", "\n    ");
    }

    method FormatListAnswer(c: Flashcard) returns (text: Option<string>)
      modifies this
      ensures text == ListAnswerSyntax(c)
      ensures stats == old(stats).(specialCharsEscaped := old(stats).specialCharsEscaped + ChangedCount(Canonical, [c.front]))
    {
      var front := EscapeSpecialChars(c.front);
      if c.listItems != [] {
        return Some(front + " >>1.");
      }
      return None;
    }

    method FormatMultipleChoice(c: Flashcard) returns (text: string)
      modifies this
      ensures text == MultipleChoiceSyntax(c)
      ensures stats == old(stats).(specialCharsEscaped := old(stats).specialCharsEscaped
                                   + ChangedCount(Canonical, [c.front] + if |c.listItems| > 1 then [] else [c.back]))
    {
      var front := EscapeSpecialChars(c.front);
      if |c.listItems| > 1 {
        return front + " >>A)";
      }
      var back := EscapeSpecialChars(c.back);
      ChangedCountAppend(Canonical, [c.front], [c.back]);
      text := front + " >> " + back;
    }

    /** `_format_card`: escapes front and back first, then lays the card out by direction and type. */
    method FormatCard(c: Flashcard) returns (text: Option<string>)
      modifies this
      ensures text == CardSyntax(c)
      ensures stats == old(stats).(specialCharsEscaped := old(stats).specialCharsEscaped + CardEscapes(c))
    {
      CardParts(c);
      var front := EscapeSpecialChars(c.front);
      var back := EscapeSpecialChars(c.back);
      if c.direction == Disabled {
        return Some(front + " =- " + back);
      }
      match c.cardType {
        case Cloze =>
          var t := FormatCloze(c);
          text := Some(t);
        case MultilineConcept =>
          var t := FormatMultilineConcept(c);
          text := Some(t);
        case ListAnswer =>
          text := FormatListAnswer(c);
        case MultipleChoice =>
          var t := FormatMultipleChoice(c);
          text := Some(t);
        case _ =>
          text := Some(front + " " + Delimiter(c.cardType, c.direction) + " " + back);
      }
    }

    /** Writes the children one level down, formatting each. */
    method WriteNested(children: seq<Flashcard>) returns (lines: seq<string>)
      modifies this
      ensures lines == EntryLines(Nested(children), CardText)
      ensures stats == old(stats).(specialCharsEscaped := old(stats).specialCharsEscaped
                                   + EntryEscapes(Nested(children), CardEscapes))
    {
      lines := [];
      for k := 0 to |children|
        invariant lines == EntryLines(Nested(children[..k]), CardText)
        invariant stats == old(stats).(specialCharsEscaped := old(stats).specialCharsEscaped
                                       + EntryEscapes(Nested(children[..k]), CardEscapes))
      {
        var line := NestedLine(children[k]);
        NestedStep(children, k, CardText, CardEscapes);
        lines := lines + [line];
      }
      assert children[..|children|] == children;
    }

    /** A child's line: the card one level down. */
    method NestedLine(c: Flashcard) returns (line: string)
      modifies this
      ensures line == EntryText(CardLine(true, c), CardText)
      ensures stats == old(stats).(specialCharsEscaped := old(stats).specialCharsEscaped + CardEscapes(c))
    {
      var text := FormatCard(c);
      line := "    # " + Shown(text);
    }

    /** A root line, followed by the children of its front and its back when either is a parent. */
    method WriteRootBlock(cards: seq<Flashcard>, r: Flashcard, hierarchy: map<string, seq<Flashcard>>)
      returns (lines: seq<string>)
      modifies this
      requires Grouping(cards, hierarchy)
      ensures lines == EntryLines(RootBlock(r, cards), CardText)
      ensures stats == old(stats).(specialCharsEscaped := old(stats).specialCharsEscaped
                                   + EntryEscapes(RootBlock(r, cards), CardEscapes))
    {
      RootBlockEntries(cards, r, hierarchy, CardText, CardEscapes);
      var formatted := FormatCard(r);
      lines := ["# " + Shown(formatted)];
      if r.front in hierarchy || r.back in hierarchy {
        var nested := WriteNested(Get(hierarchy, r.front) + Get(hierarchy, r.back));
        lines := lines + nested;
      }
    }

    /** The first half of `_format_hierarchical`: each root card in input order. */
    method WriteRoots(cards: seq<Flashcard>, roots: seq<Flashcard>, hierarchy: map<string, seq<Flashcard>>)
      returns (lines: seq<string>)
      modifies this
      requires Grouping(cards, hierarchy)
      ensures lines == EntryLines(RootSection(roots, cards), CardText)
      ensures stats == old(stats).(specialCharsEscaped := old(stats).specialCharsEscaped
                                   + EntryEscapes(RootSection(roots, cards), CardEscapes))
    {
      lines := [];
      for i := 0 to |roots|
        invariant lines == EntryLines(RootSection(roots[..i], cards), CardText)
        invariant stats == old(stats).(specialCharsEscaped := old(stats).specialCharsEscaped
                                       + EntryEscapes(RootSection(roots[..i], cards), CardEscapes))
      {
        var block := WriteRootBlock(cards, roots[i], hierarchy);
        RootSectionStep(roots, i, cards, CardText, CardEscapes);
        lines := lines + block;
      }
      assert roots[..|roots|] == roots;
    }

    /** A parent heading with the parent's children one level down. */
    method WriteGroup(parent: string, children: seq<Flashcard>) returns (lines: seq<string>)
      modifies this
      ensures lines == EntryLines([Header(parent)] + Nested(children), CardText)
      ensures stats == old(stats).(specialCharsEscaped := old(stats).specialCharsEscaped
                                   + EntryEscapes([Header(parent)] + Nested(children), CardEscapes))
    {
      GroupEntries(parent, children, CardText, CardEscapes);
      var nested := WriteNested(children);
      lines := ["# " + parent] + nested;
    }

    /**
     * The second half of `_format_hierarchical`: every group under a heading
     * of its own. The set of processed parents starts empty and the keys are
     * distinct, so no group is skipped.
     */
    method WriteGroups(cards: seq<Flashcard>, hierarchy: map<string, seq<Flashcard>>) returns (lines: seq<string>)
      modifies this
      requires Grouping(cards, hierarchy)
      ensures lines == EntryLines(ParentSection(ParentKeys(cards), cards), CardText)
      ensures stats == old(stats).(specialCharsEscaped := old(stats).specialCharsEscaped
                                   + EntryEscapes(ParentSection(ParentKeys(cards), cards), CardEscapes))
    {
      GroupingKeyed(cards, hierarchy);
      lines := WriteKeyedGroups(cards, hierarchy, ParentKeys(cards));
    }

    /** The loop over the grouping dictionary's items, in key order. */
    method WriteKeyedGroups(cards: seq<Flashcard>, hierarchy: map<string, seq<Flashcard>>, order: seq<string>)
      returns (lines: seq<string>)
      modifies this
      requires Keyed(cards, hierarchy, order)
      ensures lines == EntryLines(ParentSection(order, cards), CardText)
      ensures stats == old(stats).(specialCharsEscaped := old(stats).specialCharsEscaped
                                   + EntryEscapes(ParentSection(order, cards), CardEscapes))
    {
      lines := [];
      var processed: set<string> := {};
      for i := 0 to |order|
        invariant lines == EntryLines(ParentSection(order[..i], cards), CardText)
        invariant stats == old(stats).(specialCharsEscaped := old(stats).specialCharsEscaped
                                       + EntryEscapes(ParentSection(order[..i], cards), CardEscapes))
        invariant forall k :: i <= k < |order| ==> order[k] !in processed
      {
        ParentSectionStep(order, i, cards, CardText, CardEscapes);
        var group;
        group, processed := WriteNextGroup(cards, hierarchy, order, i, processed);
        lines := lines + group;
      }
      assert order[..|order|] == order;
    }

    /** One turn of the group loop: no key from `i` on was processed, so the group at `i` is written. */
    method WriteNextGroup(cards: seq<Flashcard>, hierarchy: map<string, seq<Flashcard>>, order: seq<string>,
                          i: nat, processed: set<string>) returns (group: seq<string>, processed': set<string>)
      modifies this
      requires Keyed(cards, hierarchy, order) && i < |order|
      requires forall k :: i <= k < |order| ==> order[k] !in processed
      ensures group == EntryLines([Header(order[i])] + Nested(Kids(cards, order[i])), CardText)
      ensures stats == old(stats).(specialCharsEscaped := old(stats).specialCharsEscaped
                                   + EntryEscapes([Header(order[i])] + Nested(Kids(cards, order[i])), CardEscapes))
      ensures forall k :: i < k < |order| ==> order[k] !in processed'
    {
      var parent := order[i];
      processed' := processed;
      if parent !in processed {
        group := WriteGroup(parent, hierarchy[parent]);
        processed' := processed + {parent};
      }
    }

    /** `_format_hierarchical`: the root section, then every group again. */
    method FormatHierarchical(cards: seq<Flashcard>) returns (text: string)
      modifies this
      ensures text == Join(EntryLines(Hierarchy(cards), CardText), "\n")
      ensures stats == old(stats).(specialCharsEscaped := old(stats).specialCharsEscaped
                                   + EntryEscapes(Hierarchy(cards), CardEscapes))
    {
      var hierarchy, roots := GroupByParent(cards);
      var rootLines := WriteRoots(cards, roots, hierarchy);
      var groupLines := WriteGroups(cards, hierarchy);
      EntriesAppend(RootSection(roots, cards), ParentSection(ParentKeys(cards), cards), CardText, CardEscapes);
      text := Join(rootLines + groupLines, "\n");
    }

    /** One line of `_format_flat`: the card, then its tags. */
    method FlatRow(card: Flashcard) returns (line: string)
      modifies this
      ensures line == FlatLine(card, CardText)
      ensures stats == old(stats).(specialCharsEscaped := old(stats).specialCharsEscaped + CardEscapes(card))
    {
      var formatted := FormatCard(card);
      var shown := Shown(formatted);
      if card.tags != [] {
        shown := shown + " " + Join(TagWords(card.tags), " ");
      }
      line := "# " + shown;
    }

    /** `_format_flat`: one line per card, in input order, with its tags. */
    method FormatFlat(cards: seq<Flashcard>) returns (text: string)
      modifies this
      ensures text == Join(FlatLines(cards, CardText), "\n")
      ensures stats == old(stats).(specialCharsEscaped := old(stats).specialCharsEscaped
                                   + FlatEscapes(cards, CardEscapes))
    {
      var lines: seq<string> := [];
      for i := 0 to |cards|
        invariant lines == FlatLines(cards[..i], CardText)
        invariant stats == old(stats).(specialCharsEscaped := old(stats).specialCharsEscaped
                                       + FlatEscapes(cards[..i], CardEscapes))
      {
        FlatStep(cards, i, CardText, CardEscapes);
        var line := FlatRow(cards[i]);
        lines := lines + [line];
      }
      assert cards[..|cards|] == cards;
      text := Join(lines, "\n");
    }

    /** `_calculate_final_stats`: everything but the escape count is recomputed from the cards. */
    method CalculateFinalStats(cards: seq<Flashcard>)
      modifies this
      ensures stats == FinalStats(cards, old(stats).specialCharsEscaped)
    {
      stats := FinalStats(cards, stats.specialCharsEscaped);
    }

    /** `format_cards`: reset the statistics, write the chosen layout, then count the cards. */
    method FormatCards(cards: seq<Flashcard>, hierarchy: bool) returns (text: string)
      modifies this
      ensures text == Output(cards, hierarchy)
      ensures cards == [] ==> stats == NoStats
      ensures cards != [] ==> stats == FinalStats(cards, LayoutEscapes(cards, hierarchy))
    {
      ResetStats();
      if cards == [] {
        return "";
      }
      if hierarchy {
        text := FormatHierarchical(cards);
      } else {
        text := FormatFlat(cards);
      }
      CalculateFinalStats(cards);
    }
  }
}
