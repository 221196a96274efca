/**
 * The flashcard record, its type and direction enumerations, the content
 * fingerprint used for duplicate detection, and the format check applied to
 * a single card.
 */
module Flashcards {
  import opened PyStr

  datatype CardType =
    | Concept
    | Basic
    | Cloze
    | Descriptor
    | MultilineBasic
    | MultilineConcept
    | MultilineDescriptor
    | ListAnswer
    | MultipleChoice

  /** The enumeration's string value. */
  function TypeValue(t: CardType): string {
    match t
    case Concept => "concept"
    case Basic => "basic"
    case Cloze => "cloze"
    case Descriptor => "descriptor"
    case MultilineBasic => "multiline_basic"
    case MultilineConcept => "multiline_concept"
    case MultilineDescriptor => "multiline_descriptor"
    case ListAnswer => "list_answer"
    case MultipleChoice => "multiple_choice"
  }

  datatype CardDirection = Forward | Backward | Bidirectional | Disabled

  function DirectionValue(d: CardDirection): string {
    match d
    case Forward => "forward"
    case Backward => "backward"
    case Bidirectional => "bidirectional"
    case Disabled => "disabled"
  }

  /**
   * One flashcard. `parent` and `extraDetail` hold "" where the program has
   * None (it only ever tests them for truthiness). The two formatting switches
   * `useTripleDelimiter` and `useAlternateSyntax` are attributes a caller may
   * set on a card; a new card has them off.
   */
  datatype Flashcard = Flashcard(
    cardType: CardType,
    front: string,
    back: string,
    parent: string,
    tags: seq<string>,
    difficulty: string,
    sourceHash: string,
    direction: CardDirection,
    listItems: seq<string>,
    correctChoiceIndex: int,
    extraDetail: string,
    isMultiline: bool,
    useTripleDelimiter: bool,
    useAlternateSyntax: bool)

  /** The hex digest of MD5 (RFC 1321) over the UTF-8 encoding of a key. */
  type Digest = string -> string

  /** The fields the fingerprint covers: front, back, type, direction and, when there are any, the list items. */
  function KeyParts(c: Flashcard): seq<string> {
    [c.front, c.back, TypeValue(c.cardType), DirectionValue(c.direction)]
    + (if c.listItems != [] then [Join(c.listItems, ",")] else [])
  }

  /** The text the fingerprint hashes: the covered fields joined by `||`. */
  function FingerprintKey(c: Flashcard): string {
    Join(KeyParts(c), "||")
  }

  /** The first eight hex digits of the key's digest. */
  function Fingerprint(md5: Digest, c: Flashcard): string {
    Take(md5(FingerprintKey(c)), 8)
  }

  /** `__post_init__`: fills in the fingerprint when no source hash was given. */
  function PostInit(md5: Digest, c: Flashcard): Flashcard {
    if c.sourceHash == "" then c.(sourceHash := Fingerprint(md5, c)) else c
  }

  /**
   * Only the source hash may change, and a given one is kept. With a digest
   * that is never empty (MD5 gives 32 hex digits) every card leaves with a
   * non-empty hash, so running `__post_init__` again changes nothing.
   */
  lemma PostInitFills(md5: Digest, c: Flashcard)
    requires md5(FingerprintKey(c)) != ""
    ensures PostInit(md5, c).(sourceHash := c.sourceHash) == c
    ensures c.sourceHash != "" ==> PostInit(md5, c).sourceHash == c.sourceHash
    ensures PostInit(md5, c).sourceHash != ""
    ensures PostInit(md5, PostInit(md5, c)) == PostInit(md5, c)
  {
  }

  /** A card built with the given fields and the remaining defaults, as the generator builds them. */
  function NewCard(md5: Digest, t: CardType, front: string, back: string, parent: string,
                   tags: seq<string>, difficulty: string, direction: CardDirection,
                   listItems: seq<string>, correctChoiceIndex: int, isMultiline: bool): (r: Flashcard)
    ensures r.cardType == t && r.front == front && r.back == back && r.parent == parent
    ensures r.tags == tags && r.difficulty == difficulty && r.direction == direction
    ensures r.listItems == listItems && r.correctChoiceIndex == correctChoiceIndex
    ensures r.isMultiline == isMultiline && r.extraDetail == ""
    ensures !r.useTripleDelimiter && !r.useAlternateSyntax
    ensures r.sourceHash == Fingerprint(md5, r)
  {
    PostInit(md5, Flashcard(t, front, back, parent, tags, difficulty, "", direction,
                            listItems, correctChoiceIndex, "", isMultiline, false, false))
  }

  /**
   * Two cards that agree on front, back, type, direction and list items get
   * the same fingerprint, whatever their tags, parent and difficulty.
   */
  lemma FingerprintIgnoresMetadata(md5: Digest, a: Flashcard, b: Flashcard)
    requires a.front == b.front && a.back == b.back && a.cardType == b.cardType
    requires a.direction == b.direction && a.listItems == b.listItems
    ensures Fingerprint(md5, a) == Fingerprint(md5, b)
  {
  }

  /** The fingerprint is never longer than eight characters. */
  lemma FingerprintLength(md5: Digest, c: Flashcard)
    ensures |Fingerprint(md5, c)| <= 8
    ensures |md5(FingerprintKey(c))| >= 8 ==> |Fingerprint(md5, c)| == 8
  {
  }

  /**
   * The key is not injective: a single item "a,b" and the two items "a", "b"
   * give the same key, so such cards count as duplicates of each other.
   */
  lemma FingerprintKeyCollision(md5: Digest, c: Flashcard)
    requires c.listItems == ["a,b"]
    ensures FingerprintKey(c) == FingerprintKey(c.(listItems := ["a", "b"]))
    ensures Fingerprint(md5, c) == Fingerprint(md5, c.(listItems := ["a", "b"]))
  {
    assert Join(["a", "b"], ",") == "a" + "," + Join(["b"], ",") == "a,b";
    assert Join(["a,b"], ",") == "a,b";
    assert KeyParts(c) == KeyParts(c.(listItems := ["a", "b"]));
  }

  predicate IsMultilineType(t: CardType) {
    t == MultilineBasic || t == MultilineConcept || t == MultilineDescriptor
  }

  /** One of the multi-line delimiters occurs in the text. */
  predicate HasMultilineDelimiter(s: string) {
    Contains(s, ":::") || Contains(s, ">>>") || Contains(s, ";;;")
  }

  /** `validate_card_format`. */
  predicate ValidateCardFormat(c: Flashcard) {
    if c.front == [] then false
    else if c.cardType != Cloze && c.back == [] && c.listItems == [] then false
    else if c.cardType == Cloze && !(Contains(c.front, "{{") && Contains(c.front, "}}")) then false
    else if (c.cardType == ListAnswer || c.cardType == MultipleChoice) && c.listItems == [] then false
    else if (HasMultilineDelimiter(c.front) || HasMultilineDelimiter(c.back))
            && !(c.isMultiline || IsMultilineType(c.cardType)) then false
    else true
  }

  /** The conditions `validate_card_format` checks, as one conjunction. */
  lemma ValidateCardFormatMeans(c: Flashcard)
    ensures ValidateCardFormat(c) <==>
      && c.front != []
      && (c.cardType == Cloze || c.back != [] || c.listItems != [])
      && (c.cardType == Cloze ==> Contains(c.front, "{{") && Contains(c.front, "}}"))
      && (c.cardType in {ListAnswer, MultipleChoice} ==> c.listItems != [])
      && (c.isMultiline || IsMultilineType(c.cardType)
          || !(HasMultilineDelimiter(c.front) || HasMultilineDelimiter(c.back)))
  {
  }
}
