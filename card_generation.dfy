/**
 * The card-generation session: for one topic, seven card kinds are produced
 * in a fixed order, every candidate passes a session-wide fingerprint set,
 * and subtopics are processed recursively. The text generator is injected as
 * the queue of outcomes its successive calls produce.
 */
module CardGeneration {
  import opened Wrappers
  import opened PyStr
  import opened Flashcards
  import opened YamlParser

  /** What one call of the text generator produced; an exhausted queue counts as a failure. */
  datatype Outcome = Ok(text: string) | Fail

  /** The per-kind values of the prompt configuration. */
  datatype PromptConfig = PromptConfig(temperature: real, separator: string, maxCards: int)

  /**
   * Prompt configuration for the four prompt-driven kinds. The cloze kind
   * uses no separator, and the descriptor kind neither temperature nor separator.
   */
  datatype Prompts = Prompts(concept: PromptConfig, basic: PromptConfig, cloze: PromptConfig, descriptor: PromptConfig)

  /** The values used when the prompt configuration leaves a key out. */
  const DefaultPrompts := Prompts(
    PromptConfig(0.3, "::", 0),
    PromptConfig(0.4, ">>", 3),
    PromptConfig(0.3, "", 2),
    PromptConfig(0.0, "", 3))

  /** The `card_types` switches of the generator configuration. */
  datatype CardTypes = CardTypes(
    concept: bool, basic: bool, cloze: bool, descriptor: bool,
    multiline: bool, listAnswer: bool, multipleChoice: bool)

  /** A missing `card_types` entry means enabled. */
  const AllEnabled := CardTypes(true, true, true, true, true, true, true)

  /** What the generator was asked for: the kind, the topic and the temperature. */
  datatype Request = Request(kind: CardType, topicName: string, temperature: real)

  /**
   * Everything a generator is built with; `replies` stands for the injected
   * text generator: its n-th call produces `replies[n]`, a failure once they run out.
   */
  datatype Setup = Setup(md5: Digest, types: CardTypes, prompts: Prompts, replies: seq<Outcome>)

  /**
   * The session's mutable state: the fingerprint set, the statistics and the
   * requests made to the text generator so far.
   */
  datatype Session = Session(
    seen: set<string>,
    totalCards: nat,
    byType: map<CardType, nat>,
    duplicatesAvoided: nat,
    topicsProcessed: nat,
    llmCalls: nat,
    requests: seq<Request>)

  const AllTypes: set<CardType> := {Concept, Basic, Cloze, Descriptor, MultilineBasic,
                                    MultilineConcept, MultilineDescriptor, ListAnswer, MultipleChoice}

  const ZeroCounts: map<CardType, nat> := map t | t in AllTypes :: 0

  /** Adds `n` to the count of `t` (a missing entry reads as 0). */
  function BumpBy(m: map<CardType, nat>, t: CardType, n: nat): map<CardType, nat> {
    if n == 0 then m else m[t := (if t in m then m[t] else 0) + n]
  }

  /** Only the count of `t` moves, by exactly `n`; every other entry stays as it was. */
  lemma BumpBySpec(m: map<CardType, nat>, t: CardType, n: nat)
    ensures var r := BumpBy(m, t, n);
            && (t in r || n == 0)
            && (n > 0 ==> r[t] == (if t in m then m[t] else 0) + n)
            && forall u :: u != t ==> (u in r <==> u in m) && (u in m ==> r[u] == m[u])
  {
  }

  lemma BumpByOne(m: map<CardType, nat>, t: CardType, n: nat)
    ensures BumpBy(BumpBy(m, t, n), t, 1) == BumpBy(m, t, n + 1)
  {
    if n > 0 {
      assert BumpBy(BumpBy(m, t, n), t, 1) == m[t := BumpBy(m, t, n)[t] + 1];
    }
  }

  /** What the generator's call number `n` produces. */
  function Reply(replies: seq<Outcome>, n: nat): Outcome {
    if n < |replies| then replies[n] else Fail
  }

  /** One generator call: the reply to the next call number, with the request recorded. */
  function Call(replies: seq<Outcome>, s: Session, req: Request): (r: (Outcome, Session))
    ensures r.1 == s.(requests := s.requests + [req])
    ensures r.0 == Reply(replies, |s.requests|)
  {
    (Reply(replies, |s.requests|), s.(requests := s.requests + [req]))
  }

  // ---------------------------------------------------------------------
  // Parsing the generator's text

  /** The concept card: the reply split at the first separator, both halves stripped. */
  function ConceptCard(md5: Digest, t: Topic, ctx: string, sep: string, text: string): (r: Option<Flashcard>)
    ensures r.Some? <==> sep != [] && Contains(text, sep)
    ensures r.Some? ==>
      && r.value.cardType == Concept && r.value.direction == Forward
      && r.value.front == Strip(SplitOnce(text, sep).0) && r.value.back == Strip(SplitOnce(text, sep).1)
      && r.value.parent == ctx && r.value.tags == [t.name] && r.value.difficulty == t.difficulty
  {
    if sep != [] && Contains(text, sep) then
      var (front, back) := SplitOnce(text, sep);
      Some(NewCard(md5, Concept, Strip(front), Strip(back), ctx, [t.name], t.difficulty, Forward, [], 0, false))
    else None
  }

  /**
   * A concept card's front and back are the stripped text before and after
   * the first separator of the reply; neither half has surrounding whitespace.
   */
  lemma ConceptCardSplitsReply(md5: Digest, t: Topic, ctx: string, sep: string, text: string)
    requires ConceptCard(md5, t, ctx, sep, text).Some?
    ensures var c := ConceptCard(md5, t, ctx, sep, text).value;
      && text == SplitOnce(text, sep).0 + sep + SplitOnce(text, sep).1
      && !Contains(SplitOnce(text, sep).0 + sep[..|sep| - 1], sep)
      && Stripped(c.front) && Stripped(c.back)
  {
    SplitOnceJoins(text, sep);
    SplitOnceAtFirst(text, sep);
  }

  /**
   * The stripped reply lines that contain `sep`, in order: a kept line is
   * exactly the stripped form of a line holding the separator.
   */
  function KeptLines(lines: seq<string>, sep: string): (r: seq<string>)
    ensures |r| <= |lines|
    ensures forall x :: x in r <==> exists i :: 0 <= i < |lines| && Contains(lines[i], sep) && x == Strip(lines[i])
  {
    if lines == [] then []
    else
      var rest := KeptLines(lines[1..], sep);
      assert forall x :: x in rest <==> exists i :: 1 <= i < |lines| && Contains(lines[i], sep) && x == Strip(lines[i]) by {
        forall x | x in rest ensures exists i :: 1 <= i < |lines| && Contains(lines[i], sep) && x == Strip(lines[i]) {
          var j :| 0 <= j < |lines[1..]| && Contains(lines[1..][j], sep) && x == Strip(lines[1..][j]);
          assert lines[1..][j] == lines[j + 1];
        }
        forall x, i | 1 <= i < |lines| && Contains(lines[i], sep) && x == Strip(lines[i]) ensures x in rest {
          assert lines[i] == lines[1..][i - 1];
        }
      }
      (if Contains(lines[0], sep) then [Strip(lines[0])] else []) + rest
  }

  /** Filtering keeps the lines' order: the kept lines of a concatenation are those of each part, in turn. */
  lemma {:induction false} KeptLinesAppend(a: seq<string>, b: seq<string>, sep: string)
    ensures KeptLines(a + b, sep) == KeptLines(a, sep) + KeptLines(b, sep)
  {
    if a == [] {
      assert a + b == b;
    } else {
      assert (a + b)[0] == a[0] && (a + b)[1..] == a[1..] + b;
      KeptLinesAppend(a[1..], b, sep);
      AppendAssoc(if Contains(a[0], sep) then [Strip(a[0])] else [], KeptLines(a[1..], sep), KeptLines(b, sep));
    }
  }

  /** When every line holds the separator, the i-th kept line is the i-th line, stripped. */
  lemma {:induction false} KeptLinesAll(lines: seq<string>, sep: string)
    requires forall i :: 0 <= i < |lines| ==> Contains(lines[i], sep)
    ensures |KeptLines(lines, sep)| == |lines|
    ensures forall i :: 0 <= i < |lines| ==> KeptLines(lines, sep)[i] == Strip(lines[i])
  {
    if lines != [] {
      KeptLinesAll(lines[1..], sep);
    }
  }

  /**
   * The stripped reply lines that contain both `{{` and `}}`, in order: a
   * kept line is exactly the stripped form of a line holding both braces.
   */
  function ClozeLines(lines: seq<string>): (r: seq<string>)
    ensures |r| <= |lines|
    ensures forall x :: x in r <==>
      exists i :: 0 <= i < |lines| && Contains(lines[i], "{{") && Contains(lines[i], "}}") && x == Strip(lines[i])
  {
    if lines == [] then []
    else
      var rest := ClozeLines(lines[1..]);
      assert forall x :: x in rest <==>
        exists i :: 1 <= i < |lines| && Contains(lines[i], "{{") && Contains(lines[i], "}}") && x == Strip(lines[i]) by {
        forall x | x in rest
          ensures exists i :: 1 <= i < |lines| && Contains(lines[i], "{{") && Contains(lines[i], "}}") && x == Strip(lines[i])
        {
          var j :| 0 <= j < |lines[1..]| && Contains(lines[1..][j], "{{") && Contains(lines[1..][j], "}}") && x == Strip(lines[1..][j]);
          assert lines[1..][j] == lines[j + 1];
        }
        forall x, i | 1 <= i < |lines| && Contains(lines[i], "{{") && Contains(lines[i], "}}") && x == Strip(lines[i])
          ensures x in rest
        {
          assert lines[i] == lines[1..][i - 1];
        }
      }
      (if Contains(lines[0], "{{") && Contains(lines[0], "}}") then [Strip(lines[0])] else []) + rest
  }

  /** The cloze filter keeps the lines' order, as KeptLinesAppend does for the separator. */
  lemma {:induction false} ClozeLinesAppend(a: seq<string>, b: seq<string>)
    ensures ClozeLines(a + b) == ClozeLines(a) + ClozeLines(b)
  {
    if a == [] {
      assert a + b == b;
    } else {
      assert (a + b)[0] == a[0] && (a + b)[1..] == a[1..] + b;
      ClozeLinesAppend(a[1..], b);
      AppendAssoc(if Contains(a[0], "{{") && Contains(a[0], "}}") then [Strip(a[0])] else [],
                  ClozeLines(a[1..]), ClozeLines(b));
    }
  }

  function BasicCard(md5: Digest, t: Topic, ctx: string, line: string, sep: string): (c: Flashcard)
    requires sep != [] && Contains(line, sep)
    ensures c.cardType == Basic && c.direction == Forward && c.parent == ctx && c.tags == [t.name]
    ensures c.front == Strip(SplitOnce(line, sep).0) && c.back == Strip(SplitOnce(line, sep).1)
  {
    var (front, back) := SplitOnce(line, sep);
    NewCard(md5, Basic, Strip(front), Strip(back), ctx, [t.name], t.difficulty, Forward, [], 0, false)
  }

  /** One basic card per line that (after stripping) still contains the separator. */
  function BasicCards(md5: Digest, t: Topic, ctx: string, sep: string, lines: seq<string>): (r: seq<Flashcard>)
    requires sep != []
    ensures |r| <= |lines|
  {
    if lines == [] then []
    else
      var rest := BasicCards(md5, t, ctx, sep, lines[1..]);
      if Contains(lines[0], sep) then [BasicCard(md5, t, ctx, lines[0], sep)] + rest else rest
  }

  /** Every card in the batch is the card of one of its lines that holds the separator. */
  lemma {:induction false} BasicCardsFrom(md5: Digest, t: Topic, ctx: string, sep: string, lines: seq<string>, c: Flashcard)
    requires sep != [] && c in BasicCards(md5, t, ctx, sep, lines)
    ensures exists i :: 0 <= i < |lines| && Contains(lines[i], sep) && c == BasicCard(md5, t, ctx, lines[i], sep)
  {
    if Contains(lines[0], sep) && c == BasicCard(md5, t, ctx, lines[0], sep) {
    } else {
      BasicCardsFrom(md5, t, ctx, sep, lines[1..], c);
      var j :| 0 <= j < |lines[1..]| && Contains(lines[1..][j], sep) && c == BasicCard(md5, t, ctx, lines[1..][j], sep);
      assert lines[1..][j] == lines[j + 1];
    }
  }

  /** Every line that holds the separator gives its card to the batch. */
  lemma {:induction false} BasicCardsOf(md5: Digest, t: Topic, ctx: string, sep: string, lines: seq<string>, i: int)
    requires sep != [] && 0 <= i < |lines| && Contains(lines[i], sep)
    ensures BasicCard(md5, t, ctx, lines[i], sep) in BasicCards(md5, t, ctx, sep, lines)
  {
    if i > 0 {
      assert lines[1..][i - 1] == lines[i];
      BasicCardsOf(md5, t, ctx, sep, lines[1..], i - 1);
    }
  }

  /** The cards keep the lines' order: the batch of a concatenation is the batches of its parts, in turn. */
  lemma {:induction false} BasicCardsAppend(md5: Digest, t: Topic, ctx: string, sep: string, a: seq<string>, b: seq<string>)
    requires sep != []
    ensures BasicCards(md5, t, ctx, sep, a + b) == BasicCards(md5, t, ctx, sep, a) + BasicCards(md5, t, ctx, sep, b)
  {
    if a == [] {
      assert a + b == b;
    } else {
      assert (a + b)[0] == a[0] && (a + b)[1..] == a[1..] + b;
      BasicCardsAppend(md5, t, ctx, sep, a[1..], b);
      if Contains(a[0], sep) {
        AppendAssoc([BasicCard(md5, t, ctx, a[0], sep)], BasicCards(md5, t, ctx, sep, a[1..]), BasicCards(md5, t, ctx, sep, b));
      }
    }
  }

  /** When every line holds the separator, card i comes from line i. */
  lemma {:induction false} BasicCardsAll(md5: Digest, t: Topic, ctx: string, sep: string, lines: seq<string>)
    requires sep != []
    requires forall i :: 0 <= i < |lines| ==> Contains(lines[i], sep)
    ensures |BasicCards(md5, t, ctx, sep, lines)| == |lines|
    ensures forall i :: 0 <= i < |lines| ==> BasicCards(md5, t, ctx, sep, lines)[i] == BasicCard(md5, t, ctx, lines[i], sep)
  {
    if lines != [] {
      BasicCardsAll(md5, t, ctx, sep, lines[1..]);
    }
  }

  /** The card a single reply line contributes, if any. */
  function BasicHead(md5: Digest, t: Topic, ctx: string, sep: string, line: string): (r: seq<Flashcard>)
    requires sep != []
    ensures |r| == (if Contains(line, sep) then 1 else 0)
  {
    if Contains(line, sep) then [BasicCard(md5, t, ctx, line, sep)] else []
  }

  lemma BasicCardsCons(md5: Digest, t: Topic, ctx: string, sep: string, lines: seq<string>)
    requires sep != [] && lines != []
    ensures BasicCards(md5, t, ctx, sep, lines) == BasicHead(md5, t, ctx, sep, lines[0]) + BasicCards(md5, t, ctx, sep, lines[1..])
  {
    if !Contains(lines[0], sep) {
      AppendEmpty(BasicCards(md5, t, ctx, sep, lines[1..]));
    }
  }

  /** Every basic card is a forward card of the topic, under the given context. */
  lemma {:induction false} BasicCardsShape(md5: Digest, t: Topic, ctx: string, sep: string, lines: seq<string>)
    requires sep != []
    ensures forall c :: c in BasicCards(md5, t, ctx, sep, lines) ==>
      c.cardType == Basic && c.direction == Forward && c.parent == ctx && c.tags == [t.name]
  {
    if lines != [] {
      BasicCardsShape(md5, t, ctx, sep, lines[1..]);
    }
  }

  function ClozeCard(md5: Digest, t: Topic, ctx: string, line: string): Flashcard {
    NewCard(md5, Cloze, line, "", ctx, [t.name], t.difficulty, Forward, [], 0, false)
  }

  function DescriptorCard(md5: Digest, t: Topic, concept: string): Flashcard {
    NewCard(md5, Descriptor, concept, "Key concept of " + t.name, t.name, [t.name, "key_concept"],
            t.difficulty, Bidirectional, [], 0, false)
  }

  /** The concept kind's parse: one card exactly when the reply holds the separator. */
  function ConceptCards(md5: Digest, cfg: PromptConfig, t: Topic, ctx: string, text: string): (r: seq<Flashcard>)
    ensures |r| <= 1
    ensures |r| == 1 <==> cfg.separator != [] && Contains(text, cfg.separator)
    ensures r != [] ==> ConceptCard(md5, t, ctx, cfg.separator, text) == Some(r[0])
  {
    var c := ConceptCard(md5, t, ctx, cfg.separator, text);
    if c.Some? then [c.value] else []
  }

  /**
   * The basic kind's parse; splitting on an empty separator raises, which the
   * kind's handler swallows. At most `maxCards` cards come out.
   */
  function ParseBasic(md5: Digest, cfg: PromptConfig, t: Topic, ctx: string, text: string): (r: seq<Flashcard>)
    ensures cfg.separator == [] ==> r == []
    ensures cfg.maxCards >= 0 ==> |r| <= cfg.maxCards
  {
    if cfg.separator == [] then []
    else BasicCards(md5, t, ctx, cfg.separator, Take(KeptLines(SplitOn(text, '\n'), cfg.separator), cfg.maxCards))
  }

  /**
   * Each parsed basic card is the card of a reply line that holds the
   * separator before and after stripping.
   */
  lemma ParseBasicFrom(md5: Digest, cfg: PromptConfig, t: Topic, ctx: string, text: string, c: Flashcard)
    requires c in ParseBasic(md5, cfg, t, ctx, text)
    ensures var lines := SplitOn(text, '\n');
      exists i :: 0 <= i < |lines| && cfg.separator != [] && Contains(lines[i], cfg.separator)
                  && Contains(Strip(lines[i]), cfg.separator) && c == BasicCard(md5, t, ctx, Strip(lines[i]), cfg.separator)
  {
    var sep := cfg.separator;
    var lines := SplitOn(text, '\n');
    var kept := KeptLines(lines, sep);
    var taken := Take(kept, cfg.maxCards);
    BasicCardsFrom(md5, t, ctx, sep, taken, c);
    var j :| 0 <= j < |taken| && Contains(taken[j], sep) && c == BasicCard(md5, t, ctx, taken[j], sep);
    assert taken[j] in kept;
    var i :| 0 <= i < |lines| && Contains(lines[i], sep) && taken[j] == Strip(lines[i]);
  }

  /**
   * When `maxCards` does not cut the list, every reply line that holds the
   * separator before and after stripping gives its card.
   */
  lemma ParseBasicComplete(md5: Digest, cfg: PromptConfig, t: Topic, ctx: string, text: string, i: int)
    requires var lines := SplitOn(text, '\n');
      && cfg.separator != [] && cfg.maxCards >= |lines| && 0 <= i < |lines|
      && Contains(lines[i], cfg.separator) && Contains(Strip(lines[i]), cfg.separator)
    ensures BasicCard(md5, t, ctx, Strip(SplitOn(text, '\n')[i]), cfg.separator) in ParseBasic(md5, cfg, t, ctx, text)
  {
    var sep := cfg.separator;
    var lines := SplitOn(text, '\n');
    var kept := KeptLines(lines, sep);
    assert Take(kept, cfg.maxCards) == kept;
    assert Strip(lines[i]) in kept;
    var j :| 0 <= j < |kept| && kept[j] == Strip(lines[i]);
    BasicCardsOf(md5, t, ctx, sep, kept, j);
  }

  function ClozeCards(md5: Digest, t: Topic, ctx: string, lines: seq<string>): (r: seq<Flashcard>)
    ensures |r| == |lines|
    ensures forall i :: 0 <= i < |lines| ==> r[i] == ClozeCard(md5, t, ctx, lines[i])
  {
    seq(|lines|, i requires 0 <= i < |lines| => ClozeCard(md5, t, ctx, lines[i]))
  }

  /** The cloze kind's parse. At most `maxCards` cards come out. */
  function ParseCloze(md5: Digest, cfg: PromptConfig, t: Topic, ctx: string, text: string): (r: seq<Flashcard>)
    ensures cfg.maxCards >= 0 ==> |r| <= cfg.maxCards
  {
    ClozeCards(md5, t, ctx, Take(ClozeLines(SplitOn(text, '\n')), cfg.maxCards))
  }

  /** Each parsed cloze card is the card of a reply line holding both braces, stripped. */
  lemma ParseClozeFrom(md5: Digest, cfg: PromptConfig, t: Topic, ctx: string, text: string, c: Flashcard)
    requires c in ParseCloze(md5, cfg, t, ctx, text)
    ensures var lines := SplitOn(text, '\n');
      exists i :: 0 <= i < |lines| && Contains(lines[i], "{{") && Contains(lines[i], "}}")
                  && c == ClozeCard(md5, t, ctx, Strip(lines[i]))
  {
    var lines := SplitOn(text, '\n');
    var kept := ClozeLines(lines);
    var taken := Take(kept, cfg.maxCards);
    var r := ClozeCards(md5, t, ctx, taken);
    var j :| 0 <= j < |r| && r[j] == c;
    assert taken[j] in kept;
    var i :| 0 <= i < |lines| && Contains(lines[i], "{{") && Contains(lines[i], "}}") && taken[j] == Strip(lines[i]);
  }

  /** When `maxCards` does not cut the list, every reply line holding both braces gives its card. */
  lemma ParseClozeComplete(md5: Digest, cfg: PromptConfig, t: Topic, ctx: string, text: string, i: int)
    requires var lines := SplitOn(text, '\n');
      cfg.maxCards >= |lines| && 0 <= i < |lines| && Contains(lines[i], "{{") && Contains(lines[i], "}}")
    ensures ClozeCard(md5, t, ctx, Strip(SplitOn(text, '\n')[i])) in ParseCloze(md5, cfg, t, ctx, text)
  {
    var lines := SplitOn(text, '\n');
    var kept := ClozeLines(lines);
    assert Take(kept, cfg.maxCards) == kept;
    assert Strip(lines[i]) in kept;
    var j :| 0 <= j < |kept| && kept[j] == Strip(lines[i]);
    assert ParseCloze(md5, cfg, t, ctx, text)[j] == ClozeCard(md5, t, ctx, Strip(lines[i]));
  }

  // ---------------------------------------------------------------------
  // The kinds derived from the topic's own fields

  function DescriptorCards(md5: Digest, t: Topic, maxCards: int): (r: seq<Flashcard>)
    ensures |r| == |Take(t.keyConcepts, maxCards)|
  {
    var concepts := Take(t.keyConcepts, maxCards);
    seq(|concepts|, i requires 0 <= i < |concepts| => DescriptorCard(md5, t, concepts[i]))
  }

  /** The i-th descriptor card asks for the i-th key concept, both ways, under the topic's name. */
  lemma DescriptorCardsShape(md5: Digest, t: Topic, maxCards: int)
    ensures forall i :: 0 <= i < |DescriptorCards(md5, t, maxCards)| ==>
      var c := DescriptorCards(md5, t, maxCards)[i];
      && c.front == t.keyConcepts[i] && c.back == "Key concept of " + t.name
      && c.parent == t.name && c.direction == Bidirectional && c.cardType == Descriptor
  {
  }

  function MultilineCards(md5: Digest, t: Topic, ctx: string): (r: seq<Flashcard>)
    ensures |r| == (if |t.content| > 200 then 1 else 0)
    ensures |r| == 1 ==> r[0].front == t.name && r[0].back == t.content && r[0].isMultiline
                         && r[0].cardType == MultilineConcept && r[0].difficulty == "intermediate"
  {
    if |t.content| > 200 then
      [NewCard(md5, MultilineConcept, t.name, t.content, ctx, [t.name, "multiline"], "intermediate",
               Forward, [], 0, true)]
    else []
  }

  function ListAnswerCards(md5: Digest, t: Topic, ctx: string): (r: seq<Flashcard>)
    ensures |r| == (if |t.keyConcepts| > 1 then 1 else 0)
    ensures |r| == 1 ==> r[0].listItems == t.keyConcepts && r[0].back == "" && r[0].cardType == ListAnswer
                         && r[0].front == "What are the key concepts of " + t.name + "?"
  {
    if |t.keyConcepts| > 1 then
      [NewCard(md5, ListAnswer, "What are the key concepts of " + t.name + "?", "", ctx,
               [t.name, "list"], "intermediate", Forward, t.keyConcepts, 0, false)]
    else []
  }

  function MultipleChoiceCards(md5: Digest, t: Topic, ctx: string): (r: seq<Flashcard>)
    ensures |r| == (if |t.examples| >= 3 then 1 else 0)
    ensures |r| == 1 ==> r[0].listItems == t.examples[..if |t.examples| < 4 then |t.examples| else 4]
                         && r[0].correctChoiceIndex == 0 && r[0].cardType == MultipleChoice
                         && r[0].front == "Which is an example of " + t.name + "?"
  {
    if |t.examples| >= 3 then
      [NewCard(md5, MultipleChoice, "Which is an example of " + t.name + "?", "", ctx,
               [t.name, "multiple_choice"], "intermediate", Forward, Take(t.examples, 4), 0, false)]
    else []
  }

  // ---------------------------------------------------------------------
  // The session as a function of its inputs

  /** The statistics after a reply was parsed into `cards`: one more counted call, the kind's count raised. */
  function Parsed(s: Session, k: CardType, cards: seq<Flashcard>): (seq<Flashcard>, Session) {
    (cards, s.(llmCalls := s.llmCalls + 1, byType := BumpBy(s.byType, k, |cards|)))
  }

  /** The statistics after a derived kind produced `cards`: the kind's count raised. */
  function Derived(s: Session, k: CardType, cards: seq<Flashcard>): (seq<Flashcard>, Session) {
    (cards, s.(byType := BumpBy(s.byType, k, |cards|)))
  }

  /** A generator makes at most one call. */
  predicate AtMostOneCall(s: Session, s': Session) {
    |s'.requests| == |s.requests| || |s'.requests| == |s.requests| + 1
  }

  /** `_generate_concept_card`: one call; a reply holding the separator gives one card. */
  function ProduceConcept(setup: Setup, s: Session, t: Topic, ctx: string): (r: (seq<Flashcard>, Session))
    ensures r.1.seen == s.seen && r.1.totalCards == s.totalCards && AtMostOneCall(s, r.1)
    ensures r.0 != [] ==> setup.types.concept && Reply(setup.replies, |s.requests|).Ok?
    ensures |r.0| <= 1
    ensures !setup.types.concept ==> r == ([], s)
    ensures setup.types.concept && Reply(setup.replies, |s.requests|).Fail? ==>
      r.0 == [] && r.1.llmCalls == s.llmCalls && r.1.byType == s.byType
    ensures setup.types.concept && Reply(setup.replies, |s.requests|).Ok? ==>
      r.0 == ConceptCards(setup.md5, setup.prompts.concept, t, ctx, Reply(setup.replies, |s.requests|).text)
      && r.1.llmCalls == s.llmCalls + 1 && r.1.byType == BumpBy(s.byType, Concept, |r.0|)
  {
    if !setup.types.concept then ([], s)
    else
      var (o, s1) := Call(setup.replies, s, Request(Concept, t.name, setup.prompts.concept.temperature));
      if o.Fail? then ([], s1)
      else Parsed(s1, Concept, ConceptCards(setup.md5, setup.prompts.concept, t, ctx, o.text))
  }

  /**
   * `_generate_basic_cards`: one call when enabled; a successful reply gives
   * the cards ParseBasic specifies, at most `max_cards` of them, each counted
   * under the basic kind.
   */
  function ProduceBasic(setup: Setup, s: Session, t: Topic, ctx: string): (r: (seq<Flashcard>, Session))
    ensures r.1.seen == s.seen && r.1.totalCards == s.totalCards && AtMostOneCall(s, r.1)
    ensures r.0 != [] ==> setup.types.basic && Reply(setup.replies, |s.requests|).Ok?
    ensures !setup.types.basic ==> r == ([], s)
    ensures setup.types.basic && Reply(setup.replies, |s.requests|).Fail? ==>
      r.0 == [] && r.1.llmCalls == s.llmCalls && r.1.byType == s.byType
    ensures setup.types.basic && Reply(setup.replies, |s.requests|).Ok? ==>
      r.0 == ParseBasic(setup.md5, setup.prompts.basic, t, ctx, Reply(setup.replies, |s.requests|).text)
      && r.1.llmCalls == s.llmCalls + 1 && r.1.byType == BumpBy(s.byType, Basic, |r.0|)
    ensures setup.prompts.basic.maxCards >= 0 ==> |r.0| <= setup.prompts.basic.maxCards
  {
    if !setup.types.basic then ([], s)
    else
      var (o, s1) := Call(setup.replies, s, Request(Basic, t.name, setup.prompts.basic.temperature));
      if o.Fail? then ([], s1)
      // with an empty separator the parse is empty: the split raises after the call was counted
      else Parsed(s1, Basic, ParseBasic(setup.md5, setup.prompts.basic, t, ctx, o.text))
  }

  /**
   * `_generate_cloze_cards`: one call when enabled; a successful reply gives
   * the cards ParseCloze specifies, at most `max_cards` of them, each counted
   * under the cloze kind.
   */
  function ProduceCloze(setup: Setup, s: Session, t: Topic, ctx: string): (r: (seq<Flashcard>, Session))
    ensures r.1.seen == s.seen && r.1.totalCards == s.totalCards && AtMostOneCall(s, r.1)
    ensures r.0 != [] ==> setup.types.cloze && Reply(setup.replies, |s.requests|).Ok?
    ensures !setup.types.cloze ==> r == ([], s)
    ensures setup.types.cloze && Reply(setup.replies, |s.requests|).Fail? ==>
      r.0 == [] && r.1.llmCalls == s.llmCalls && r.1.byType == s.byType
    ensures setup.types.cloze && Reply(setup.replies, |s.requests|).Ok? ==>
      r.0 == ParseCloze(setup.md5, setup.prompts.cloze, t, ctx, Reply(setup.replies, |s.requests|).text)
      && r.1.llmCalls == s.llmCalls + 1 && r.1.byType == BumpBy(s.byType, Cloze, |r.0|)
    ensures setup.prompts.cloze.maxCards >= 0 ==> |r.0| <= setup.prompts.cloze.maxCards
  {
    if !setup.types.cloze then ([], s)
    else
      var (o, s1) := Call(setup.replies, s, Request(Cloze, t.name, setup.prompts.cloze.temperature));
      if o.Fail? then ([], s1)
      else Parsed(s1, Cloze, ParseCloze(setup.md5, setup.prompts.cloze, t, ctx, o.text))
  }

  /** `_generate_descriptor_cards`: no call; a card per key concept, up to the configured number. */
  function ProduceDescriptor(setup: Setup, s: Session, t: Topic): (r: (seq<Flashcard>, Session))
    ensures r.1.seen == s.seen && r.1.totalCards == s.totalCards && r.1.requests == s.requests
    ensures |r.0| == (if setup.types.descriptor then |Take(t.keyConcepts, setup.prompts.descriptor.maxCards)| else 0)
    ensures setup.types.descriptor ==>
      r == (DescriptorCards(setup.md5, t, setup.prompts.descriptor.maxCards),
            s.(byType := BumpBy(s.byType, Descriptor, |r.0|)))
    ensures !setup.types.descriptor ==> r == ([], s)
  {
    if !setup.types.descriptor then ([], s)
    else Derived(s, Descriptor, DescriptorCards(setup.md5, t, setup.prompts.descriptor.maxCards))
  }

  /** `_generate_multiline_cards`: no call; long content gives one card. */
  function ProduceMultiline(setup: Setup, s: Session, t: Topic, ctx: string): (r: (seq<Flashcard>, Session))
    ensures r.1.seen == s.seen && r.1.totalCards == s.totalCards && r.1.requests == s.requests
    ensures |r.0| == (if |t.content| > 200 then 1 else 0)
    ensures r.0 == MultilineCards(setup.md5, t, ctx) && r.1 == s.(byType := BumpBy(s.byType, MultilineConcept, |r.0|))
  {
    Derived(s, MultilineConcept, MultilineCards(setup.md5, t, ctx))
  }

  /** `_generate_list_answer_cards`: no call; two or more key concepts give one card. */
  function ProduceListAnswer(setup: Setup, s: Session, t: Topic, ctx: string): (r: (seq<Flashcard>, Session))
    ensures r.1.seen == s.seen && r.1.totalCards == s.totalCards && r.1.requests == s.requests
    ensures |r.0| == (if |t.keyConcepts| > 1 then 1 else 0)
    ensures r.0 == ListAnswerCards(setup.md5, t, ctx) && r.1 == s.(byType := BumpBy(s.byType, ListAnswer, |r.0|))
  {
    Derived(s, ListAnswer, ListAnswerCards(setup.md5, t, ctx))
  }

  /** `_generate_multiple_choice_cards`: no call; three or more examples give one card. */
  function ProduceMultipleChoice(setup: Setup, s: Session, t: Topic, ctx: string): (r: (seq<Flashcard>, Session))
    ensures r.1.seen == s.seen && r.1.totalCards == s.totalCards && r.1.requests == s.requests
    ensures |r.0| == (if |t.examples| >= 3 then 1 else 0)
    ensures r.0 == MultipleChoiceCards(setup.md5, t, ctx) && r.1 == s.(byType := BumpBy(s.byType, MultipleChoice, |r.0|))
  {
    Derived(s, MultipleChoice, MultipleChoiceCards(setup.md5, t, ctx))
  }

  /**
   * The fingerprint filter over a batch of candidates: a candidate whose
   * hash was seen is counted as a duplicate, any other one is kept and its
   * hash recorded at once.
   */
  function Admit(s: Session, cands: seq<Flashcard>): (seq<Flashcard>, Session)
    decreases |cands|
  {
    if cands == [] then ([], s)
    else if cands[0].sourceHash in s.seen then
      Admit(s.(duplicatesAvoided := s.duplicatesAvoided + 1), cands[1..])
    else
      var (rest, s') := Admit(s.(seen := s.seen + {cands[0].sourceHash}, totalCards := s.totalCards + 1), cands[1..]);
      ([cands[0]] + rest, s')
  }

  /** A kind's block in `generate_cards`: when its switch is on, what the generator produced passes the filter. */
  function Guarded(on: bool, s: Session, produced: (seq<Flashcard>, Session)): (seq<Flashcard>, Session) {
    if on then Admit(produced.1, produced.0) else ([], s)
  }

  /** Cloze cards are only asked for when the topic has key concepts or examples. */
  predicate ClozeWorthy(t: Topic) {
    t.keyConcepts != [] || t.examples != []
  }

  /** The seven blocks `generate_cards` runs for the topic itself. */
  datatype Block =
    | ConceptBlock
    | BasicBlock
    | ClozeBlock
    | DescriptorBlock
    | MultilineBlock
    | ListAnswerBlock
    | MultipleChoiceBlock

  /** The blocks in the order `generate_cards` runs them. */
  const OwnBlocks: seq<Block> := [ConceptBlock, BasicBlock, ClozeBlock, DescriptorBlock,
                                  MultilineBlock, ListAnswerBlock, MultipleChoiceBlock]

  /**
   * The test `generate_cards` puts in front of a block. The concept and basic
   * blocks have none: their generators check their own switches.
   */
  predicate Runs(setup: Setup, t: Topic, b: Block) {
    match b
    case ConceptBlock => true
    case BasicBlock => true
    case ClozeBlock => ClozeWorthy(t)
    case DescriptorBlock => setup.types.descriptor
    case MultilineBlock => setup.types.multiline
    case ListAnswerBlock => setup.types.listAnswer
    case MultipleChoiceBlock => setup.types.multipleChoice
  }

  /** The blocks whose generator asks the text generator. */
  predicate Asks(b: Block) {
    b == ConceptBlock || b == BasicBlock || b == ClozeBlock
  }

  /** What the topic's own fields let a block derive without asking. */
  predicate Derives(t: Topic, b: Block) {
    match b
    case DescriptorBlock => t.keyConcepts != []
    case MultilineBlock => |t.content| > 200
    case ListAnswerBlock => |t.keyConcepts| > 1
    case MultipleChoiceBlock => |t.examples| >= 3
    case _ => false
  }

  /** A block's generator. */
  function Produce(setup: Setup, s: Session, t: Topic, ctx: string, b: Block): (seq<Flashcard>, Session) {
    match b
    case ConceptBlock => ProduceConcept(setup, s, t, ctx)
    case BasicBlock => ProduceBasic(setup, s, t, ctx)
    case ClozeBlock => ProduceCloze(setup, s, t, ctx)
    case DescriptorBlock => ProduceDescriptor(setup, s, t)
    case MultilineBlock => ProduceMultiline(setup, s, t, ctx)
    case ListAnswerBlock => ProduceListAnswer(setup, s, t, ctx)
    case MultipleChoiceBlock => ProduceMultipleChoice(setup, s, t, ctx)
  }

  /** No generator touches the fingerprint set; one that asks makes at most one call, and one that derives none. */
  lemma ProduceKeepsFilter(setup: Setup, s: Session, t: Topic, ctx: string, b: Block)
    ensures var r := Produce(setup, s, t, ctx, b);
            && r.1.seen == s.seen && r.1.totalCards == s.totalCards && AtMostOneCall(s, r.1)
            && (!Asks(b) ==> r.1.requests == s.requests)
  {
  }

  /** A generator that asks yields cards only from a successful reply; one that derives, only when the topic allows it. */
  lemma ProduceNeedsSource(setup: Setup, s: Session, t: Topic, ctx: string, b: Block)
    ensures Produce(setup, s, t, ctx, b).0 != [] ==>
              if Asks(b) then Reply(setup.replies, |s.requests|).Ok? else Derives(t, b)
  {
  }

  /** A block of `generate_cards`: when its test passes, what its generator produced goes through the filter. */
  function RunBlock(setup: Setup, s: Session, t: Topic, ctx: string, b: Block): (seq<Flashcard>, Session) {
    Guarded(Runs(setup, t, b), s, Produce(setup, s, t, ctx, b))
  }

  /** The blocks `bs` run one after the other, each on the state the previous one left. */
  function RunBlocks(setup: Setup, s: Session, t: Topic, ctx: string, bs: seq<Block>): (seq<Flashcard>, Session)
    decreases |bs|, 1
  {
    if bs == [] then ([], s) else RunLast(setup, s, t, ctx, bs)
  }

  /** A non-empty run of blocks: all but the last, then the last on the state they left. */
  function RunLast(setup: Setup, s: Session, t: Topic, ctx: string, bs: seq<Block>): (seq<Flashcard>, Session)
    requires bs != []
    decreases |bs|, 0
  {
    var (a, s1) := RunBlocks(setup, s, t, ctx, bs[..|bs| - 1]);
    var (c, s2) := RunBlock(setup, s1, t, ctx, bs[|bs| - 1]);
    (a + c, s2)
  }

  /** The Concept block run after the blocks `bs`, on the state they left. */
  lemma ConceptBlockLast(setup: Setup, s: Session, t: Topic, ctx: string, bs: seq<Block>)
    ensures var p := RunBlocks(setup, s, t, ctx, bs);
            var c := Guarded(true, p.1, ProduceConcept(setup, p.1, t, ctx));
            RunBlocks(setup, s, t, ctx, bs + [ConceptBlock]) == (p.0 + c.0, c.1)
  {
    assert (bs + [ConceptBlock])[..|bs|] == bs;
  }

  /** The Basic block run after the blocks `bs`, on the state they left. */
  lemma BasicBlockLast(setup: Setup, s: Session, t: Topic, ctx: string, bs: seq<Block>)
    ensures var p := RunBlocks(setup, s, t, ctx, bs);
            var c := Guarded(true, p.1, ProduceBasic(setup, p.1, t, ctx));
            RunBlocks(setup, s, t, ctx, bs + [BasicBlock]) == (p.0 + c.0, c.1)
  {
    assert (bs + [BasicBlock])[..|bs|] == bs;
  }

  /** The Cloze block run after the blocks `bs`, on the state they left. */
  lemma ClozeBlockLast(setup: Setup, s: Session, t: Topic, ctx: string, bs: seq<Block>)
    ensures var p := RunBlocks(setup, s, t, ctx, bs);
            var c := Guarded(ClozeWorthy(t), p.1, ProduceCloze(setup, p.1, t, ctx));
            RunBlocks(setup, s, t, ctx, bs + [ClozeBlock]) == (p.0 + c.0, c.1)
  {
    assert (bs + [ClozeBlock])[..|bs|] == bs;
  }

  /** The Descriptor block run after the blocks `bs`, on the state they left. */
  lemma DescriptorBlockLast(setup: Setup, s: Session, t: Topic, ctx: string, bs: seq<Block>)
    ensures var p := RunBlocks(setup, s, t, ctx, bs);
            var c := Guarded(setup.types.descriptor, p.1, ProduceDescriptor(setup, p.1, t));
            RunBlocks(setup, s, t, ctx, bs + [DescriptorBlock]) == (p.0 + c.0, c.1)
  {
    assert (bs + [DescriptorBlock])[..|bs|] == bs;
  }

  /** The Multiline block run after the blocks `bs`, on the state they left. */
  lemma MultilineBlockLast(setup: Setup, s: Session, t: Topic, ctx: string, bs: seq<Block>)
    ensures var p := RunBlocks(setup, s, t, ctx, bs);
            var c := Guarded(setup.types.multiline, p.1, ProduceMultiline(setup, p.1, t, ctx));
            RunBlocks(setup, s, t, ctx, bs + [MultilineBlock]) == (p.0 + c.0, c.1)
  {
    assert (bs + [MultilineBlock])[..|bs|] == bs;
  }

  /** The ListAnswer block run after the blocks `bs`, on the state they left. */
  lemma ListAnswerBlockLast(setup: Setup, s: Session, t: Topic, ctx: string, bs: seq<Block>)
    ensures var p := RunBlocks(setup, s, t, ctx, bs);
            var c := Guarded(setup.types.listAnswer, p.1, ProduceListAnswer(setup, p.1, t, ctx));
            RunBlocks(setup, s, t, ctx, bs + [ListAnswerBlock]) == (p.0 + c.0, c.1)
  {
    assert (bs + [ListAnswerBlock])[..|bs|] == bs;
  }

  /** The MultipleChoice block run after the blocks `bs`, on the state they left. */
  lemma MultipleChoiceBlockLast(setup: Setup, s: Session, t: Topic, ctx: string, bs: seq<Block>)
    ensures var p := RunBlocks(setup, s, t, ctx, bs);
            var c := Guarded(setup.types.multipleChoice, p.1, ProduceMultipleChoice(setup, p.1, t, ctx));
            RunBlocks(setup, s, t, ctx, bs + [MultipleChoiceBlock]) == (p.0 + c.0, c.1)
  {
    assert (bs + [MultipleChoiceBlock])[..|bs|] == bs;
  }

  /** The cards and the state after the first `k` blocks of `generate_cards`. */
  function OwnPrefix(setup: Setup, s: Session, t: Topic, ctx: string, k: nat): (seq<Flashcard>, Session)
    requires k <= |OwnBlocks|
  {
    RunBlocks(setup, s, t, ctx, OwnBlocks[..k])
  }

  /** The topic's own cards: the seven blocks in the order `generate_cards` runs them. */
  function OwnCards(setup: Setup, s: Session, t: Topic, ctx: string): (seq<Flashcard>, Session) {
    RunBlocks(setup, s, t, ctx, OwnBlocks)
  }

  /** `generate_cards`: own cards in kind order, then each subtopic's cards with this topic as context. */
  function GenTopic(setup: Setup, s: Session, t: Topic, ctx: string): (seq<Flashcard>, Session)
    decreases t.subtopics, 1
  {
    var (own, s1) := OwnCards(setup, s, t, ctx);
    var (subs, s2) := GenForest(setup, s1, t.subtopics, t.name);
    (own + subs, s2.(topicsProcessed := s2.topicsProcessed + 1))
  }

  function GenForest(setup: Setup, s: Session, ts: seq<Topic>, ctx: string): (seq<Flashcard>, Session)
    decreases ts, 0
  {
    if ts == [] then ([], s)
    else
      var (a, s1) := GenTopic(setup, s, ts[0], ctx);
      var (rest, s2) := GenForest(setup, s1, ts[1..], ctx);
      (a + rest, s2)
  }

  /** `GenTopic` unfolded once, with its parts named. */
  lemma GenTopicUnfold(setup: Setup, s: Session, t: Topic, ctx: string)
    ensures var own := OwnCards(setup, s, t, ctx);
            var subs := GenForest(setup, own.1, t.subtopics, t.name);
            GenTopic(setup, s, t, ctx) == (own.0 + subs.0, subs.1.(topicsProcessed := subs.1.topicsProcessed + 1))
  {
  }

  /** `GenTopic` put together from its two halves, each already computed. */
  lemma GenTopicCompose(setup: Setup, s: Session, t: Topic, ctx: string,
                        own: seq<Flashcard>, s1: Session, subs: seq<Flashcard>, s2: Session)
    requires own == OwnCards(setup, s, t, ctx).0 && s1 == OwnCards(setup, s, t, ctx).1
    requires subs == GenForest(setup, s1, t.subtopics, t.name).0 && s2 == GenForest(setup, s1, t.subtopics, t.name).1
    ensures GenTopic(setup, s, t, ctx) == (own + subs, s2.(topicsProcessed := s2.topicsProcessed + 1))
  {
    GenTopicUnfold(setup, s, t, ctx);
  }

  /** `GenForest` on a non-empty list, unfolded once. */
  lemma GenForestCons(setup: Setup, s: Session, ts: seq<Topic>, ctx: string)
    requires ts != []
    ensures var a := GenTopic(setup, s, ts[0], ctx);
            var rest := GenForest(setup, a.1, ts[1..], ctx);
            GenForest(setup, s, ts, ctx) == (a.0 + rest.0, rest.1)
  {
  }

  // ---------------------------------------------------------------------
  // Properties of the fingerprint filter

  function Hashes(cs: seq<Flashcard>): set<string> {
    if cs == [] then {} else {cs[0].sourceHash} + Hashes(cs[1..])
  }

  /** No two cards share a fingerprint. */
  predicate Distinct(cs: seq<Flashcard>) {
    cs != [] ==> cs[0].sourceHash !in Hashes(cs[1..]) && Distinct(cs[1..])
  }

  lemma {:induction false} HashesConcat(a: seq<Flashcard>, b: seq<Flashcard>)
    ensures Hashes(a + b) == Hashes(a) + Hashes(b)
  {
    if a != [] {
      assert (a + b)[0] == a[0];
      assert (a + b)[1..] == a[1..] + b;
      HashesConcat(a[1..], b);
    } else {
      assert a + b == b;
    }
  }

  lemma {:induction false} DistinctConcat(a: seq<Flashcard>, b: seq<Flashcard>)
    requires Distinct(a) && Distinct(b) && Hashes(a) !! Hashes(b)
    ensures Distinct(a + b)
  {
    if a != [] {
      assert (a + b)[0] == a[0];
      assert (a + b)[1..] == a[1..] + b;
      DistinctConcat(a[1..], b);
      HashesConcat(a[1..], b);
      assert a[0].sourceHash in Hashes(a);
    } else {
      assert a + b == b;
    }
  }

  lemma {:induction false} DistinctCardinality(cs: seq<Flashcard>)
    requires Distinct(cs)
    ensures |Hashes(cs)| == |cs|
  {
    if cs != [] {
      DistinctCardinality(cs[1..]);
    }
  }

  /** `s2` follows `s` by accepting exactly `cards`, all new and pairwise distinct. */
  predicate Accepts(s: Session, cards: seq<Flashcard>, s2: Session) {
    && Distinct(cards)
    && s.seen !! Hashes(cards)
    && s2.seen == s.seen + Hashes(cards)
    && s2.totalCards == s.totalCards + |cards|
  }

  lemma AcceptsTrans(s0: Session, a: seq<Flashcard>, s1: Session, b: seq<Flashcard>, s2: Session)
    requires Accepts(s0, a, s1) && Accepts(s1, b, s2)
    ensures Accepts(s0, a + b, s2)
  {
    HashesConcat(a, b);
    DistinctConcat(a, b);
  }

  /**
   * What the filter does to a batch: the kept cards are new and pairwise
   * distinct, their hashes are exactly the batch's hashes not seen before,
   * and every other candidate is counted as a duplicate.
   */
  lemma {:induction false} AdmitSpec(s: Session, cands: seq<Flashcard>)
    ensures Accepts(s, Admit(s, cands).0, Admit(s, cands).1)
    ensures Hashes(Admit(s, cands).0) == Hashes(cands) - s.seen
    ensures Admit(s, cands).1.duplicatesAvoided + |Admit(s, cands).0| == s.duplicatesAvoided + |cands|
    ensures Admit(s, cands).1 == s.(seen := Admit(s, cands).1.seen, totalCards := Admit(s, cands).1.totalCards,
                                     duplicatesAvoided := Admit(s, cands).1.duplicatesAvoided)
    ensures forall c :: c in Admit(s, cands).0 ==> c in cands
    decreases |cands|
  {
    if cands != [] {
      var h := cands[0].sourceHash;
      if h in s.seen {
        AdmitSpec(s.(duplicatesAvoided := s.duplicatesAvoided + 1), cands[1..]);
      } else {
        var s1 := s.(seen := s.seen + {h}, totalCards := s.totalCards + 1);
        AdmitSpec(s1, cands[1..]);
        var (rest, s2) := Admit(s1, cands[1..]);
        assert ([cands[0]] + rest)[1..] == rest;
      }
    }
  }

  /** Three identical candidates yield one card and two avoided duplicates. */
  lemma IdenticalCandidatesYieldOne(s: Session, c: Flashcard)
    requires c.sourceHash !in s.seen
    ensures Admit(s, [c, c, c]).0 == [c]
    ensures Admit(s, [c, c, c]).1.duplicatesAvoided == s.duplicatesAvoided + 2
    ensures Admit(s, [c, c, c]).1.seen == s.seen + {c.sourceHash}
  {
    var s1 := s.(seen := s.seen + {c.sourceHash}, totalCards := s.totalCards + 1);
    assert [c, c, c][1..] == [c, c];
    assert [c, c][1..] == [c];
    assert Admit(s1, [c, c]) == Admit(s1.(duplicatesAvoided := s1.duplicatesAvoided + 1), [c]);
  }

  /** A kind's block passes the filter's guarantees on, since no generator touches the fingerprint set. */
  lemma GuardedAccepts(on: bool, s: Session, produced: (seq<Flashcard>, Session))
    requires produced.1.seen == s.seen && produced.1.totalCards == s.totalCards
    ensures Accepts(s, Guarded(on, s, produced).0, Guarded(on, s, produced).1)
  {
    if on {
      AdmitSpec(produced.1, produced.0);
    }
  }

  /** One block passes the filter's guarantees on. */
  lemma RunBlockAccepts(setup: Setup, s: Session, t: Topic, ctx: string, b: Block)
    ensures Accepts(s, RunBlock(setup, s, t, ctx, b).0, RunBlock(setup, s, t, ctx, b).1)
  {
    ProduceKeepsFilter(setup, s, t, ctx, b);
    GuardedAccepts(Runs(setup, t, b), s, Produce(setup, s, t, ctx, b));
  }

  /** Blocks run in sequence pass the filter's guarantees on to all their cards together. */
  lemma {:induction false} RunBlocksAccepts(setup: Setup, s: Session, t: Topic, ctx: string, bs: seq<Block>)
    ensures Accepts(s, RunBlocks(setup, s, t, ctx, bs).0, RunBlocks(setup, s, t, ctx, bs).1)
    decreases |bs|
  {
    if bs != [] {
      var (a, s1) := RunBlocks(setup, s, t, ctx, bs[..|bs| - 1]);
      RunBlocksAccepts(setup, s, t, ctx, bs[..|bs| - 1]);
      var (c, s2) := RunBlock(setup, s1, t, ctx, bs[|bs| - 1]);
      RunBlockAccepts(setup, s1, t, ctx, bs[|bs| - 1]);
      AcceptsTrans(s, a, s1, c, s2);
    }
  }

  /** The seven blocks together pass the filter's guarantees on to the topic's own cards. */
  lemma OwnCardsAccepts(setup: Setup, s: Session, t: Topic, ctx: string)
    ensures Accepts(s, OwnCards(setup, s, t, ctx).0, OwnCards(setup, s, t, ctx).1)
  {
    RunBlocksAccepts(setup, s, t, ctx, OwnBlocks);
  }

  /**
   * Over a whole topic tree, the accepted cards are pairwise distinct and
   * new to the session, and the set and the card count grow by exactly them.
   */
  lemma {:induction false} GenTopicAccepts(setup: Setup, s: Session, t: Topic, ctx: string)
    ensures Accepts(s, GenTopic(setup, s, t, ctx).0, GenTopic(setup, s, t, ctx).1)
    decreases t.subtopics, 1
  {
    GenTopicUnfold(setup, s, t, ctx);
    var own := OwnCards(setup, s, t, ctx);
    OwnCardsAccepts(setup, s, t, ctx);
    var subs := GenForest(setup, own.1, t.subtopics, t.name);
    GenForestAccepts(setup, own.1, t.subtopics, t.name);
    AcceptsTrans(s, own.0, own.1, subs.0, subs.1);
    AcceptsIgnoresTopicCount(s, own.0 + subs.0, subs.1);
  }

  lemma AcceptsIgnoresTopicCount(s: Session, cards: seq<Flashcard>, s2: Session)
    requires Accepts(s, cards, s2)
    ensures Accepts(s, cards, s2.(topicsProcessed := s2.topicsProcessed + 1))
  {
  }

  lemma {:induction false} GenForestAccepts(setup: Setup, s: Session, ts: seq<Topic>, ctx: string)
    ensures Accepts(s, GenForest(setup, s, ts, ctx).0, GenForest(setup, s, ts, ctx).1)
    decreases ts, 0
  {
    if ts != [] {
      var (a, s1) := GenTopic(setup, s, ts[0], ctx);
      GenTopicAccepts(setup, s, ts[0], ctx);
      GenForestAccepts(setup, s1, ts[1..], ctx);
      var (rest, s2) := GenForest(setup, s1, ts[1..], ctx);
      AcceptsTrans(s, a, s1, rest, s2);
    }
  }

  /** `total_cards` keeps equal to the size of the fingerprint set. */
  lemma TotalMatchesSeen(setup: Setup, s: Session, t: Topic, ctx: string)
    requires s.totalCards == |s.seen|
    ensures GenTopic(setup, s, t, ctx).1.totalCards == |GenTopic(setup, s, t, ctx).1.seen|
  {
    var (cards, s2) := GenTopic(setup, s, t, ctx);
    GenTopicAccepts(setup, s, t, ctx);
    DistinctCardinality(cards);
  }

  // ---------------------------------------------------------------------
  // A generator that always fails

  /** Every reply still to come is a failure. */
  predicate AllFail(setup: Setup, s: Session) {
    forall i :: |s.requests| <= i < |setup.replies| ==> setup.replies[i] == Fail
  }

  /** Short content, no key concepts and fewer than three examples, at every level. */
  predicate NothingDerived(t: Topic)
    decreases t
  {
    && |t.content| <= 200 && t.keyConcepts == [] && |t.examples| < 3
    && forall i :: 0 <= i < |t.subtopics| ==> NothingDerived(t.subtopics[i])
  }

  /** A block that cannot derive anything yields nothing from a failing generator. */
  lemma BlockNothing(setup: Setup, s: Session, t: Topic, ctx: string, b: Block)
    requires AllFail(setup, s) && !Derives(t, b)
    ensures RunBlock(setup, s, t, ctx, b).0 == []
    ensures AllFail(setup, RunBlock(setup, s, t, ctx, b).1)
  {
    ProduceKeepsFilter(setup, s, t, ctx, b);
    ProduceNeedsSource(setup, s, t, ctx, b);
  }

  lemma {:induction false} RunBlocksNothing(setup: Setup, s: Session, t: Topic, ctx: string, bs: seq<Block>)
    requires AllFail(setup, s)
    requires forall i :: 0 <= i < |bs| ==> !Derives(t, bs[i])
    ensures RunBlocks(setup, s, t, ctx, bs).0 == []
    ensures AllFail(setup, RunBlocks(setup, s, t, ctx, bs).1)
    decreases |bs|
  {
    if bs != [] {
      var (a, s1) := RunBlocks(setup, s, t, ctx, bs[..|bs| - 1]);
      RunBlocksNothing(setup, s, t, ctx, bs[..|bs| - 1]);
      BlockNothing(setup, s1, t, ctx, bs[|bs| - 1]);
      AppendEmpty<Flashcard>([]);
    }
  }

  lemma OwnCardsNothing(setup: Setup, s: Session, t: Topic, ctx: string)
    requires AllFail(setup, s) && NothingDerived(t)
    ensures OwnCards(setup, s, t, ctx).0 == []
    ensures AllFail(setup, OwnCards(setup, s, t, ctx).1)
  {
    RunBlocksNothing(setup, s, t, ctx, OwnBlocks);
  }

  /** A topic tree that derives nothing, under a generator that always fails, yields no cards. */
  lemma {:induction false} FailingGeneratorYieldsNothing(setup: Setup, s: Session, t: Topic, ctx: string)
    requires AllFail(setup, s) && NothingDerived(t)
    ensures GenTopic(setup, s, t, ctx).0 == []
    ensures AllFail(setup, GenTopic(setup, s, t, ctx).1)
    decreases t.subtopics, 1
  {
    OwnCardsNothing(setup, s, t, ctx);
    var (own, s1) := OwnCards(setup, s, t, ctx);
    FailingForestYieldsNothing(setup, s1, t.subtopics, t.name);
  }

  lemma {:induction false} FailingForestYieldsNothing(setup: Setup, s: Session, ts: seq<Topic>, ctx: string)
    requires AllFail(setup, s) && forall i :: 0 <= i < |ts| ==> NothingDerived(ts[i])
    ensures GenForest(setup, s, ts, ctx).0 == []
    ensures AllFail(setup, GenForest(setup, s, ts, ctx).1)
    decreases ts, 0
  {
    if ts != [] {
      FailingGeneratorYieldsNothing(setup, s, ts[0], ctx);
      var (a, s1) := GenTopic(setup, s, ts[0], ctx);
      FailingForestYieldsNothing(setup, s1, ts[1..], ctx);
    }
  }

  // ---------------------------------------------------------------------
  // The generator object

  /**
   * `CardGenerator`: the fingerprint set and statistics are fields that its
   * methods update in place; the injected text generator is the sequence
   * `replies` of what its successive calls produce.
   */
  class CardGenerator {
    const md5: Digest
    const types: CardTypes
    const prompts: Prompts
    const replies: seq<Outcome>
    var generatedCards: set<string>
    var totalCards: nat
    var byType: map<CardType, nat>
    var duplicatesAvoided: nat
    var topicsProcessed: nat
    var llmCalls: nat
    var requests: seq<Request>

    function Configuration(): Setup {
      Setup(md5, types, prompts, replies)
    }

    function State(): Session
      reads this
    {
      Session(generatedCards, totalCards, byType, duplicatesAvoided, topicsProcessed, llmCalls, requests)
    }

    constructor (md5: Digest, types: CardTypes, prompts: Prompts, replies: seq<Outcome>)
      ensures Configuration() == Setup(md5, types, prompts, replies)
      ensures State() == Session({}, 0, ZeroCounts, 0, 0, 0, [])
    {
      this.md5 := md5;
      this.types := types;
      this.prompts := prompts;
      this.replies := replies;
      generatedCards := {};
      totalCards := 0;
      byType := ZeroCounts;
      duplicatesAvoided := 0;
      topicsProcessed := 0;
      llmCalls := 0;
      requests := [];
    }

    /** `_is_unique_card`: a seen fingerprint is counted as an avoided duplicate. */
    method IsUniqueCard(c: Flashcard) returns (unique: bool)
      modifies this
      ensures unique <==> c.sourceHash !in old(generatedCards)
      ensures State() == if unique then old(State())
                         else old(State()).(duplicatesAvoided := old(duplicatesAvoided) + 1)
    {
      if c.sourceHash in generatedCards {
        duplicatesAvoided := duplicatesAvoided + 1;
        return false;
      }
      return true;
    }

    /** `_register_card`: the fingerprint joins the set and the card is counted. */
    method RegisterCard(c: Flashcard)
      modifies this
      ensures State() == old(State()).(seen := old(generatedCards) + {c.sourceHash}, totalCards := old(totalCards) + 1)
    {
      generatedCards := generatedCards + {c.sourceHash};
      totalCards := totalCards + 1;
    }

    /** One call of the text generator. */
    method Generate(k: CardType, t: Topic, temperature: real) returns (o: Outcome)
      modifies this
      ensures (o, State()) == Call(replies, old(State()), Request(k, t.name, temperature))
    {
      o := if |requests| < |replies| then replies[|requests|] else Fail;
      requests := requests + [Request(k, t.name, temperature)];
    }

    /** The filter loop `generate_cards` runs over each kind's candidates. */
    method AcceptAll(cards: seq<Flashcard>, cands: seq<Flashcard>) returns (cards': seq<Flashcard>)
      modifies this
      ensures cards' == cards + Admit(old(State()), cands).0
      ensures State() == Admit(old(State()), cands).1
    {
      cards' := cards;
      var i := 0;
      while i < |cands|
        invariant 0 <= i <= |cands|
        invariant cards' + Admit(State(), cands[i..]).0 == cards + Admit(old(State()), cands).0
        invariant Admit(State(), cands[i..]).1 == Admit(old(State()), cands).1
      {
        assert cands[i..][1..] == cands[i + 1..];
        var unique := IsUniqueCard(cands[i]);
        if unique {
          cards' := cards' + [cands[i]];
          RegisterCard(cands[i]);
        }
        i := i + 1;
      }
    }

    /** `_generate_concept_card`. */
    method GenerateConceptCard(t: Topic, ctx: string) returns (card: Option<Flashcard>)
      modifies this
      ensures (if card.Some? then [card.value] else [], State()) == ProduceConcept(Configuration(), old(State()), t, ctx)
    {
      card := None;
      if types.concept {
        var o := Generate(Concept, t, prompts.concept.temperature);
        if o.Ok? {
          llmCalls := llmCalls + 1;
          card := ConceptCard(md5, t, ctx, prompts.concept.separator, o.text);
          if card.Some? {
            byType := BumpBy(byType, Concept, 1);
          }
        }
      }
    }

    /** `_generate_basic_cards`. */
    method GenerateBasicCards(t: Topic, ctx: string) returns (cards: seq<Flashcard>)
      modifies this
      ensures (cards, State()) == ProduceBasic(Configuration(), old(State()), t, ctx)
    {
      cards := [];
      if !types.basic {
        return;
      }
      var o := Generate(Basic, t, prompts.basic.temperature);
      if o.Fail? {
        return;
      }
      llmCalls := llmCalls + 1;
      var sep := prompts.basic.separator;
      if sep == [] {
        // splitting on an empty separator raises, which the handler swallows
        return;
      }
      var lines := Take(KeptLines(SplitOn(o.text, '\n'), sep), prompts.basic.maxCards);
      cards := BasicFromLines(t, ctx, sep, lines);
    }

    /** The basic loop: a card for each line that still holds the separator, counted as it is made. */
    method BasicFromLines(t: Topic, ctx: string, sep: string, lines: seq<string>) returns (cards: seq<Flashcard>)
      requires sep != []
      modifies this`byType
      ensures cards == BasicCards(md5, t, ctx, sep, lines)
      ensures byType == BumpBy(old(byType), Basic, |cards|)
    {
      cards := [];
      assert lines[0..] == lines;
      AppendEmpty(BasicCards(md5, t, ctx, sep, lines));
      var i := 0;
      while i < |lines|
        invariant 0 <= i <= |lines|
        invariant cards + BasicCards(md5, t, ctx, sep, lines[i..]) == BasicCards(md5, t, ctx, sep, lines)
        invariant byType == BumpBy(old(byType), Basic, |cards|)
      {
        BasicCardsCons(md5, t, ctx, sep, lines[i..]);
        assert lines[i..][0] == lines[i] && lines[i..][1..] == lines[i + 1..];
        ghost var rest := BasicCards(md5, t, ctx, sep, lines[i + 1..]);
        ghost var before := cards;
        cards := BasicLine(t, ctx, sep, lines[i], cards, old(byType));
        AppendAssoc(before, BasicHead(md5, t, ctx, sep, lines[i]), rest);
        i := i + 1;
      }
      assert lines[i..] == [];
      AppendEmpty(cards);
    }

    /** One pass of the basic loop: the line becomes a card when it holds the separator. */
    method BasicLine(t: Topic, ctx: string, sep: string, line: string, cards: seq<Flashcard>,
                     ghost start: map<CardType, nat>) returns (cards': seq<Flashcard>)
      requires sep != []
      requires byType == BumpBy(start, Basic, |cards|)
      modifies this`byType
      ensures cards' == cards + BasicHead(md5, t, ctx, sep, line)
      ensures byType == BumpBy(start, Basic, |cards'|)
    {
      cards' := cards;
      if !Contains(line, sep) {
        AppendEmpty(cards);
      } else {
        BumpByOne(start, Basic, |cards|);
        cards' := cards + [BasicCard(md5, t, ctx, line, sep)];
        byType := BumpBy(byType, Basic, 1);
      }
    }

    /** `_generate_cloze_cards`. */
    method GenerateClozeCards(t: Topic, ctx: string) returns (cards: seq<Flashcard>)
      modifies this
      ensures (cards, State()) == ProduceCloze(Configuration(), old(State()), t, ctx)
    {
      cards := [];
      if !types.cloze {
        return;
      }
      var o := Generate(Cloze, t, prompts.cloze.temperature);
      if o.Fail? {
        return;
      }
      llmCalls := llmCalls + 1;
      var lines := Take(ClozeLines(SplitOn(o.text, '\n')), prompts.cloze.maxCards);
      cards := ClozeFromLines(t, ctx, lines);
    }

    /** The cloze loop: one card per kept line, each counted as it is made. */
    method ClozeFromLines(t: Topic, ctx: string, lines: seq<string>) returns (cards: seq<Flashcard>)
      modifies this`byType
      ensures cards == ClozeCards(md5, t, ctx, lines)
      ensures byType == BumpBy(old(byType), Cloze, |lines|)
    {
      cards := [];
      var i := 0;
      while i < |lines|
        invariant 0 <= i <= |lines|
        invariant |cards| == i && forall j :: 0 <= j < i ==> cards[j] == ClozeCard(md5, t, ctx, lines[j])
        invariant byType == BumpBy(old(byType), Cloze, i)
      {
        cards := ClozeLine(t, ctx, lines[i], cards, old(byType));
        i := i + 1;
      }
    }

    /** One pass of the cloze loop: the line becomes a card, counted under the cloze kind. */
    method ClozeLine(t: Topic, ctx: string, line: string, cards: seq<Flashcard>,
                     ghost start: map<CardType, nat>) returns (cards': seq<Flashcard>)
      requires byType == BumpBy(start, Cloze, |cards|)
      modifies this`byType
      ensures cards' == cards + [ClozeCard(md5, t, ctx, line)]
      ensures byType == BumpBy(start, Cloze, |cards'|)
    {
      BumpByOne(start, Cloze, |cards|);
      cards' := cards + [ClozeCard(md5, t, ctx, line)];
      byType := BumpBy(byType, Cloze, 1);
    }

    /** `_generate_descriptor_cards`. */
    method GenerateDescriptorCards(t: Topic, ctx: string) returns (cards: seq<Flashcard>)
      modifies this
      ensures (cards, State()) == ProduceDescriptor(Configuration(), old(State()), t)
    {
      cards := [];
      if !types.descriptor {
        return;
      }
      var concepts := Take(t.keyConcepts, prompts.descriptor.maxCards);
      cards := DescriptorFromConcepts(t, concepts);
      assert cards == DescriptorCards(md5, t, prompts.descriptor.maxCards);
    }

    /** The descriptor loop: one card per key concept, each counted as it is made. */
    method DescriptorFromConcepts(t: Topic, concepts: seq<string>) returns (cards: seq<Flashcard>)
      modifies this`byType
      ensures |cards| == |concepts|
      ensures forall j :: 0 <= j < |concepts| ==> cards[j] == DescriptorCard(md5, t, concepts[j])
      ensures byType == BumpBy(old(byType), Descriptor, |concepts|)
    {
      cards := [];
      for i := 0 to |concepts|
        invariant |cards| == i && forall j :: 0 <= j < i ==> cards[j] == DescriptorCard(md5, t, concepts[j])
        invariant byType == BumpBy(old(byType), Descriptor, i)
      {
        BumpByOne(old(byType), Descriptor, i);
        cards := cards + [DescriptorCard(md5, t, concepts[i])];
        byType := BumpBy(byType, Descriptor, 1);
      }
    }

    /** `_generate_multiline_cards`. */
    method GenerateMultilineCards(t: Topic, ctx: string) returns (cards: seq<Flashcard>)
      modifies this
      ensures (cards, State()) == ProduceMultiline(Configuration(), old(State()), t, ctx)
    {
      cards := MultilineCards(md5, t, ctx);
      byType := BumpBy(byType, MultilineConcept, |cards|);
    }

    /** `_generate_list_answer_cards`. */
    method GenerateListAnswerCards(t: Topic, ctx: string) returns (cards: seq<Flashcard>)
      modifies this
      ensures (cards, State()) == ProduceListAnswer(Configuration(), old(State()), t, ctx)
    {
      cards := ListAnswerCards(md5, t, ctx);
      byType := BumpBy(byType, ListAnswer, |cards|);
    }

    /** `_generate_multiple_choice_cards`. */
    method GenerateMultipleChoiceCards(t: Topic, ctx: string) returns (cards: seq<Flashcard>)
      modifies this
      ensures (cards, State()) == ProduceMultipleChoice(Configuration(), old(State()), t, ctx)
    {
      cards := MultipleChoiceCards(md5, t, ctx);
      byType := BumpBy(byType, MultipleChoice, |cards|);
    }

    /** The part of `generate_cards` that runs the seven kinds for the topic itself, in order. */
    method GenerateOwnCards(t: Topic, ctx: string) returns (cards: seq<Flashcard>)
      modifies this
      ensures (cards, State()) == OwnCards(Configuration(), old(State()), t, ctx)
    {
      ghost var s0 := State();
      cards := [];
      cards := StepConcept(t, ctx, cards, s0);
      cards := StepBasic(t, ctx, cards, s0);
      cards := StepCloze(t, ctx, cards, s0);
      cards := StepDescriptor(t, ctx, cards, s0);
      cards := StepMultiline(t, ctx, cards, s0);
      cards := StepListAnswer(t, ctx, cards, s0);
      cards := StepMultipleChoice(t, ctx, cards, s0);
      assert OwnBlocks[..7] == OwnBlocks;
    }

    /** The Concept block of `generate_cards`: its guard, its generator and the fingerprint filter. */
    method StepConcept(t: Topic, ctx: string, cards: seq<Flashcard>, ghost s0: Session) returns (cards': seq<Flashcard>)
      modifies this
      requires (cards, State()) == OwnPrefix(Configuration(), s0, t, ctx, 0)
      ensures (cards', State()) == OwnPrefix(Configuration(), s0, t, ctx, 1)
    {
      ConceptBlockLast(Configuration(), s0, t, ctx, OwnBlocks[..0]);
      assert OwnBlocks[..0] + [ConceptBlock] == OwnBlocks[..1];
      var concept := GenerateConceptCard(t, ctx);
      cards' := AcceptAll(cards, if concept.Some? then [concept.value] else []);
    }

    /** The Basic block of `generate_cards`: its guard, its generator and the fingerprint filter. */
    method StepBasic(t: Topic, ctx: string, cards: seq<Flashcard>, ghost s0: Session) returns (cards': seq<Flashcard>)
      modifies this
      requires (cards, State()) == OwnPrefix(Configuration(), s0, t, ctx, 1)
      ensures (cards', State()) == OwnPrefix(Configuration(), s0, t, ctx, 2)
    {
      BasicBlockLast(Configuration(), s0, t, ctx, OwnBlocks[..1]);
      assert OwnBlocks[..1] + [BasicBlock] == OwnBlocks[..2];
      var basic := GenerateBasicCards(t, ctx);
      cards' := AcceptAll(cards, basic);
    }

    /** The Cloze block of `generate_cards`: its guard, its generator and the fingerprint filter. */
    method StepCloze(t: Topic, ctx: string, cards: seq<Flashcard>, ghost s0: Session) returns (cards': seq<Flashcard>)
      modifies this
      requires (cards, State()) == OwnPrefix(Configuration(), s0, t, ctx, 2)
      ensures (cards', State()) == OwnPrefix(Configuration(), s0, t, ctx, 3)
    {
      ClozeBlockLast(Configuration(), s0, t, ctx, OwnBlocks[..2]);
      assert OwnBlocks[..2] + [ClozeBlock] == OwnBlocks[..3];
      if t.keyConcepts != [] || t.examples != [] {
        var cloze := GenerateClozeCards(t, ctx);
        cards' := AcceptAll(cards, cloze);
      } else {
        cards' := cards;
        AppendEmpty(cards);
      }
    }

    /** The Descriptor block of `generate_cards`: its guard, its generator and the fingerprint filter. */
    method StepDescriptor(t: Topic, ctx: string, cards: seq<Flashcard>, ghost s0: Session) returns (cards': seq<Flashcard>)
      modifies this
      requires (cards, State()) == OwnPrefix(Configuration(), s0, t, ctx, 3)
      ensures (cards', State()) == OwnPrefix(Configuration(), s0, t, ctx, 4)
    {
      DescriptorBlockLast(Configuration(), s0, t, ctx, OwnBlocks[..3]);
      assert OwnBlocks[..3] + [DescriptorBlock] == OwnBlocks[..4];
      if types.descriptor {
        var descriptors := GenerateDescriptorCards(t, ctx);
        cards' := AcceptAll(cards, descriptors);
      } else {
        cards' := cards;
        AppendEmpty(cards);
      }
    }

    /** The MultilineConcept block of `generate_cards`: its guard, its generator and the fingerprint filter. */
    method StepMultiline(t: Topic, ctx: string, cards: seq<Flashcard>, ghost s0: Session) returns (cards': seq<Flashcard>)
      modifies this
      requires (cards, State()) == OwnPrefix(Configuration(), s0, t, ctx, 4)
      ensures (cards', State()) == OwnPrefix(Configuration(), s0, t, ctx, 5)
    {
      MultilineBlockLast(Configuration(), s0, t, ctx, OwnBlocks[..4]);
      assert OwnBlocks[..4] + [MultilineBlock] == OwnBlocks[..5];
      if types.multiline {
        var multiline := GenerateMultilineCards(t, ctx);
        cards' := AcceptAll(cards, multiline);
      } else {
        cards' := cards;
        AppendEmpty(cards);
      }
    }

    /** The ListAnswer block of `generate_cards`: its guard, its generator and the fingerprint filter. */
    method StepListAnswer(t: Topic, ctx: string, cards: seq<Flashcard>, ghost s0: Session) returns (cards': seq<Flashcard>)
      modifies this
      requires (cards, State()) == OwnPrefix(Configuration(), s0, t, ctx, 5)
      ensures (cards', State()) == OwnPrefix(Configuration(), s0, t, ctx, 6)
    {
      ListAnswerBlockLast(Configuration(), s0, t, ctx, OwnBlocks[..5]);
      assert OwnBlocks[..5] + [ListAnswerBlock] == OwnBlocks[..6];
      if types.listAnswer {
        var lists := GenerateListAnswerCards(t, ctx);
        cards' := AcceptAll(cards, lists);
      } else {
        cards' := cards;
        AppendEmpty(cards);
      }
    }

    /** The MultipleChoice block of `generate_cards`: its guard, its generator and the fingerprint filter. */
    method StepMultipleChoice(t: Topic, ctx: string, cards: seq<Flashcard>, ghost s0: Session) returns (cards': seq<Flashcard>)
      modifies this
      requires (cards, State()) == OwnPrefix(Configuration(), s0, t, ctx, 6)
      ensures (cards', State()) == OwnPrefix(Configuration(), s0, t, ctx, 7)
    {
      MultipleChoiceBlockLast(Configuration(), s0, t, ctx, OwnBlocks[..6]);
      assert OwnBlocks[..6] + [MultipleChoiceBlock] == OwnBlocks[..7];
      if types.multipleChoice {
        var choices := GenerateMultipleChoiceCards(t, ctx);
        cards' := AcceptAll(cards, choices);
      } else {
        cards' := cards;
        AppendEmpty(cards);
      }
    }

    /** `generate_cards`. */
    method GenerateCards(t: Topic, ctx: string) returns (cards: seq<Flashcard>)
      modifies this
      ensures (cards, State()) == GenTopic(Configuration(), old(State()), t, ctx)
      decreases t.subtopics, 1
    {
      ghost var s0 := State();
      cards := GenerateOwnCards(t, ctx);
      ghost var s1 := State();
      var subs := GenerateSubtopicCards(t.subtopics, t.name);
      GenTopicCompose(Configuration(), s0, t, ctx, cards, s1, subs, State());
      cards := cards + subs;
      CountTopic();
    }

    /** The topic counter of `generate_cards`, raised once the topic and its subtopics are done. */
    method CountTopic()
      modifies this
      ensures State() == old(State()).(topicsProcessed := old(State()).topicsProcessed + 1)
    {
      topicsProcessed := topicsProcessed + 1;
    }

    /** The loop of `generate_cards` over the subtopics, each given the topic's name as context. */
    method GenerateSubtopicCards(ts: seq<Topic>, ctx: string) returns (cards: seq<Flashcard>)
      modifies this
      ensures (cards, State()) == GenForest(Configuration(), old(State()), ts, ctx)
      decreases ts, 0
    {
      ghost var setup := Configuration();
      ghost var goal := GenForest(setup, State(), ts, ctx);
      assert ts[0..] == ts;
      AppendEmpty(goal.0);
      cards := [];
      var i := 0;
      while i < |ts|
        invariant 0 <= i <= |ts|
        invariant cards + GenForest(setup, State(), ts[i..], ctx).0 == goal.0
        invariant GenForest(setup, State(), ts[i..], ctx).1 == goal.1
      {
        GenForestCons(setup, State(), ts[i..], ctx);
        assert ts[i..][1..] == ts[i + 1..];
        assert ts[i..][0] == ts[i];
        var sub := GenerateCards(ts[i], ctx);
        AppendAssoc(cards, sub, GenForest(setup, State(), ts[i + 1..], ctx).0);
        cards := cards + sub;
        i := i + 1;
      }
      assert ts[i..] == [];
      AppendEmpty(cards);
    }

    /** `reset_stats`: the fingerprint set is emptied and every counter zeroed. */
    method ResetStats()
      modifies this
      ensures State() == old(State()).(seen := {}, totalCards := 0, byType := ZeroCounts,
                                       duplicatesAvoided := 0, topicsProcessed := 0, llmCalls := 0)
      ensures totalCards == |generatedCards|
    {
      generatedCards := {};
      totalCards := 0;
      byType := ZeroCounts;
      duplicatesAvoided := 0;
      topicsProcessed := 0;
      llmCalls := 0;
    }
  }
}
