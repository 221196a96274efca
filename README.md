# RemNote flashcard generator — a verified model of its core

The RemNote flashcard generator turns a YAML outline of machine-learning
system-design topics into spaced-repetition cards, formatted for RemNote's
import syntax. Its core has six parts, and each one is a Dafny module here:

| source | Dafny module | form |
|---|---|---|
| `card_generator.py` (the `Flashcard` record, fingerprinting, `validate_card_format`) | `Flashcards` (`flashcards.dfy`) | datatypes and functions |
| `card_generator.py` (`CardGenerator`) | `CardGeneration` (`card_generation.dfy`) | a `class` whose methods update the de-duplication set and the statistics, proved against a pure model of a generation session |
| `yaml_parser.py` | `YamlParser` (`yaml_parser.dfy`) | a YAML value datatype, `Result`-returning conversions, recursive counting methods |
| `remnote_formatter.py` | `RemNoteFormatter` (`remnote_formatter.dfy`) | a `Formatter` class with a statistics field and methods proved against line-list functions |
| `remnote_formatter_fixed.py` | `FixedFormatter` (`remnote_formatter_fixed.dfy`) | the same, for the revised formatter and its indented hierarchy |
| the escaper the two formatters share | `Escaping` (`escaping.dfy`) | the replacement table of each formatter as data, the cloze regular expression as predicates |
| `config_manager.py` | `ConfigManager` (`config_manager.dfy`) | nested configuration maps, environment overrides, typed configuration, validation |
| `llm_client.py` | `LlmClient` (`llm_client.dfy`) | the retry loop as a method proved against a recursive specification, and a `Client` class with request and token counters |

Two helper modules carry no source of their own. `Wrappers` (`wrappers.dfy`)
holds `Option` and `Result`. `PyStr` (`pystr.dfy`) gives Python's string
operations exact definitions: `strip`, `in`, `count`, `replace`, `find`,
`split`, `join` and slicing. It also defines `lower` on ASCII letters and
`repr` for the quoting and the common escapes.

Things the program reads from outside are parameters of the model:

- The MD5 digest is a function `Digest` from text to text. A card's fingerprint is the first eight characters of the digest of its key fields.
- The model's answers are a script: a sequence of outcomes, one per call.
- The process environment is a map from variable names to values.
- Python's `int()`/`float()` parsing is an `Option`-valued function parameter.
- Numbers that the source prints as floats are rendered by a parameter `FloatText`.

Card text is `string`. The model has no Unicode beyond Dafny's `char`.

## Model

| member | source | states |
|---|---|---|
| Flashcards.PostInitFills | remnote-flashcard-generator/src/card_generator.py:83-90 | `__post_init__` changes at most the source hash and keeps a given one; with a digest that is never empty every card leaves with a non-empty hash, so running it again changes nothing |
| Flashcards.NewCard | remnote-flashcard-generator/src/card_generator.py:51-90 | a freshly built card holds exactly the given fields, the defaults for the rest, and its own fingerprint as source hash |
| Flashcards.FingerprintIgnoresMetadata | remnote-flashcard-generator/src/card_generator.py:83-90 | two cards that agree on front, back, type, direction and list items get the same fingerprint, whatever their tags, parent or difficulty |
| Flashcards.FingerprintLength | remnote-flashcard-generator/src/card_generator.py:88-90 | a fingerprint has at most eight characters, and exactly eight when the digest has that many |
| Flashcards.FingerprintKeyCollision | remnote-flashcard-generator/src/card_generator.py:85-88 | the list items are joined with ",", so `["a,b"]` and `["a","b"]` give the same key and fingerprint |
| Flashcards.ValidateCardFormatMeans | remnote-flashcard-generator/src/card_generator.py:422-459 | a card passes the format check exactly when the front is non-empty; non-cloze cards have a back or list items; cloze fronts hold `{{` and `}}`; list and choice cards have items; and multi-line delimiters appear only on multi-line cards |
| YamlParser.MakeTopic | remnote-flashcard-generator/src/yaml_parser.py:22-64 | a topic is built exactly when the stripped name is non-empty, the stripped content has at least 10 characters and the difficulty is empty or one of the three levels; name and content are stored stripped |
| YamlParser.Strings | remnote-flashcard-generator/src/yaml_parser.py:306-339 | a list of YAML values converts to strings exactly when every item is a string, item for item |
| YamlParser.StringListField | remnote-flashcard-generator/src/yaml_parser.py:321-322 | a missing list field reads as the empty list |
| YamlParser.ConvertTopic | remnote-flashcard-generator/src/yaml_parser.py:306-339 | a converted topic is well formed, its name is the stripped YAML name, missing examples and key concepts become empty lists, a missing difficulty becomes "intermediate", and it has one subtopic per YAML subtopic |
| YamlParser.ConvertTopicFields | remnote-flashcard-generator/src/yaml_parser.py:306-339 | a node converts exactly when its examples and key concepts hold only strings, its subtopics convert, its stripped content has at least ten characters and its difficulty is empty or a known level; the topic then carries the node's content, examples, key concepts and difficulty (or their defaults) and the converted subtopics |
| YamlParser.ConvertList | remnote-flashcard-generator/src/yaml_parser.py:296-302 | a list of nodes converts exactly when every node converts; topic i is then the conversion of node i, in order, and the list is well formed |
| YamlParser.Collect | remnote-flashcard-generator/src/yaml_parser.py:298-302 | collecting results in order succeeds exactly when every result is a success, item i then holding result i's value; otherwise it fails with the parse-failure message |
| YamlParser.ValidTopicStructure | remnote-flashcard-generator/src/yaml_parser.py:238-283 | a topic node is a mapping with non-blank string name and content, list-typed subtopics, examples and key concepts and a string difficulty when present, and every subtopic is valid in turn |
| YamlParser.ValidateStructure | remnote-flashcard-generator/src/yaml_parser.py:193-237 | the content section is a mapping whose metadata is a mapping holding a subject and whose topics are a non-empty list of valid topic nodes |
| YamlParser.LoadContent | remnote-flashcard-generator/src/yaml_parser.py:164-191 | a non-mapping root, a missing `ml_system_design` key and a structure that fails validation each give the source's message; a valid structure loads exactly when its topics convert, and a success carries one topic per YAML topic, well formed, with the metadata's subject |
| YamlParser.BlankNameRefused | remnote-flashcard-generator/src/yaml_parser.py:181-183 | a top-level topic whose name is blank makes loading fail with "Invalid content structure" |
| YamlParser.NestedFieldChecked | remnote-flashcard-generator/src/yaml_parser.py:265-281 | validation recurses: a subtopic whose subtopics, examples or key concepts are not a list makes its parent invalid |
| YamlParser.WellFormedLevelsKnown | remnote-flashcard-generator/src/yaml_parser.py:59-63 | in a well-formed topic tree every difficulty is one of the three levels |
| YamlParser.DistributionCoversAll | remnote-flashcard-generator/src/yaml_parser.py:384-404 | the beginner, intermediate and advanced counts add up to the total number of topics in the tree |
| YamlParser.CountTopicsRecursive | remnote-flashcard-generator/src/yaml_parser.py:351-361 | returns the number of topics in the tree, subtopics included |
| YamlParser.CalculateContentLength | remnote-flashcard-generator/src/yaml_parser.py:363-373 | returns the total content length over the whole tree |
| YamlParser.CountDifficulty | remnote-flashcard-generator/src/yaml_parser.py:396-402 | raises each level's count by the number of topics of that level in the tree and adds no key |
| YamlParser.DifficultyDistribution | remnote-flashcard-generator/src/yaml_parser.py:384-404 | the distribution has exactly the three levels as keys, each counted over the whole tree, summing to the topic total |
| YamlParser.GetContentStats | remnote-flashcard-generator/src/yaml_parser.py:341-382 | total topics at least main topics; examples and key concepts counted over the top level; the content length; reading minutes as whole thousands of characters; the subject or "Unknown"; the level distribution summing to the total |
| YamlParser.TotalAtLeastLength | remnote-flashcard-generator/src/yaml_parser.py:351-361 | a forest holds at least as many topics as it has roots |
| Escaping.Table | remnote-flashcard-generator/src/remnote_formatter.py:295-303 | each formatter's table has seven entries, and each replacement is exactly one character longer than its token |
| Escaping.PassesLength | remnote-flashcard-generator/src/remnote_formatter.py:305-307 | the replacement passes lengthen the text by exactly one character per replaced occurrence |
| Escaping.PassesUnchanged | remnote-flashcard-generator/src/remnote_formatter.py:305-307 | the passes leave the text unchanged exactly when they replace nothing |
| Escaping.PassesTokenFree | remnote-flashcard-generator/src/remnote_formatter.py:305-307 | text holding none of the tokens passes through unchanged |
| Escaping.PassesKeep | remnote-flashcard-generator/src/remnote_formatter.py:305-307 | a substring that no later pass can break survives the passes |
| Escaping.PassesCompose | remnote-flashcard-generator/src/remnote_formatter.py:306-307 | running passes m..j and then j..n is the same as running m..n |
| Escaping.PassesStep | remnote-flashcard-generator/src/remnote_formatter.py:306-307 | the first j+1 passes are the first j followed by one `str.replace` of entry j |
| Escaping.SpanEnd | remnote-flashcard-generator/src/remnote_formatter.py:313-314 | a non-negative result ends a `{{x}}` match of the cloze pattern at that start; a negative one means no match starts there |
| Escaping.SearchFrom | remnote-flashcard-generator/src/remnote_formatter.py:313-314 | `re.search` gives -1 or the start of a match at or after the given position |
| Escaping.SearchFromFinds | remnote-flashcard-generator/src/remnote_formatter.py:313-314 | the search succeeds exactly when some match starts at or after the position |
| Escaping.HasClozeSpanIff | remnote-flashcard-generator/src/remnote_formatter.py:313-314 | the search finds a match exactly when the text holds a `{{…}}` span with a non-empty inside free of `}` |
| Escaping.MatchesFromPositive | remnote-flashcard-generator/src/remnote_formatter.py:401-402 | `re.findall` from a position finds something exactly when `re.search` does |
| Escaping.ClozeMatchCountPositive | remnote-flashcard-generator/src/remnote_formatter.py:401-402 | `findall` finds at least one cloze exactly when the text has a cloze span |
| Escaping.NoOpenNoSpan | remnote-flashcard-generator/src/remnote_formatter.py:401-402 | text without `{{` has no cloze match |
| Escaping.ValidClozeHasSpan | remnote-flashcard-generator/src/remnote_formatter.py:398-408 | text that passes the cloze check and holds `{{` holds a well-formed cloze |
| Escaping.BracelessIsValid | remnote-flashcard-generator/src/remnote_formatter.py:398-408 | text with neither `{{` nor `}}` passes the cloze check |
| Escaping.ValidClozeExample | remnote-flashcard-generator/src/remnote_formatter.py:398-408 | `{{a}}` passes the cloze check |
| Escaping.EmptyClozeInvalid | remnote-flashcard-generator/src/remnote_formatter.py:398-408 | `{{}}` fails the cloze check |
| Escaping.EscapeText | remnote-flashcard-generator/src/remnote_formatter.py:287-315 | the loop over the table, then the brace rule, computes the escape function |
| Escaping.BracesLength | remnote-flashcard-generator/src/remnote_formatter.py:311-315 | the brace rule adds one character per `{{` and `}}` it breaks, and only when no cloze match exists |
| Escaping.EscapeLength | remnote-flashcard-generator/src/remnote_formatter.py:287-315 | the escaped text is longer than the input by exactly the number of replacements made |
| Escaping.EscapeChangedIffLonger | remnote-flashcard-generator/src/remnote_formatter.py:318-319 | the length comparison behind the escape counter is exact: escaping changed the text exactly when it changed its length, and it never shortens it |
| Escaping.EscapeTokenFree | remnote-flashcard-generator/src/remnote_formatter.py:287-315 | text without tokens and without a `{{`…`}}` pair is returned unchanged |
| Escaping.PlainChars | remnote-flashcard-generator/src/remnote_formatter.py:295-303 | plain text contains none of the characters the tokens are made of |
| Escaping.PlainUnchanged | remnote-flashcard-generator/src/remnote_formatter.py:287-315 | plain text is returned unchanged by both escapers |
| Escaping.BracesKeep | remnote-flashcard-generator/src/remnote_formatter.py:315 | a brace-free substring survives the brace rule |
| Escaping.EscapeSplits | remnote-flashcard-generator/src/remnote_formatter.py:305-315 | when no earlier pass can break a token and no later pass can break its replacement, text holding the token escapes to text holding the replacement |
| Escaping.ColonsApart | remnote-flashcard-generator/src/remnote_formatter.py:296-302 | no later pass can break `: :` |
| Escaping.SemicolonsApart | remnote-flashcard-generator/src/remnote_formatter.py:296-302 | no earlier pass breaks `;;` and no later one breaks `; ;` |
| Escaping.OpenerApart | remnote-flashcard-generator/src/remnote_formatter.py:296-302 | no earlier pass breaks `#[[` and no later one its replacement |
| Escaping.CloserApart | remnote-flashcard-generator/src/remnote_formatter.py:296-302 | no earlier pass breaks `]]` |
| Escaping.ColonApart | remnote-flashcard-generator/src/remnote_formatter.py:296 | `::` is the first pass's token, so no later pass can break its replacement |
| Escaping.EscapeSplitsDisjointTokens | remnote-flashcard-generator/src/remnote_formatter_fixed.py:346-358 | in both formatters, text holding `::`, `;;`, `#[[` or `]]` escapes to text holding `: :`, `; ;`, the table's reference replacement or `] ]` |
| Escaping.EscapeSplitsArrow | remnote-flashcard-generator/src/remnote_formatter.py:297 | text holding `>>` and no `<` escapes to text holding `> >` |
| Escaping.EscapeTestSentence | remnote-flashcard-generator/tests/test_formatter_features.py:98-100 | "Text with :: and >> chars" escapes to text holding both `: :` and `> >` |
| Escaping.EscapeKeepsAfterColons | remnote-flashcard-generator/src/remnote_formatter.py:305-315 | what the first pass produced, no later pass can break, survives the escaper |
| Escaping.TripleColon | remnote-flashcard-generator/src/remnote_formatter.py:296 | `":::".replace("::", ": :")` is `": ::"`, which still holds `::` |
| Escaping.EscapeIncomplete | remnote-flashcard-generator/src/remnote_formatter_fixed.py:347 | both escapers map `:::` to text that still holds `::` |
| Escaping.TableFree | remnote-flashcard-generator/src/remnote_formatter.py:295-307 | text without any of the seven tokens passes the table unchanged |
| Escaping.EscapeBrokenBraces | remnote-flashcard-generator/src/remnote_formatter.py:311-315 | token-free text with `{{` and `}}` but no cloze match has its braces split apart |
| Escaping.EmptyClozeBroken | remnote-flashcard-generator/src/remnote_formatter.py:311-315 | `{{}}` is not a cloze match, so the brace rule applies to it |
| Escaping.ChangedCountBound | remnote-flashcard-generator/src/remnote_formatter.py:318-319 | the escape counter rises at most once per escaped text, and not at all for plain text |
| Escaping.ChangedCountAppend | remnote-flashcard-generator/src/remnote_formatter.py:318-319 | the counter over two batches of texts is the sum of the two counts |
| CardGeneration.BumpBySpec | remnote-flashcard-generator/src/card_generator.py:260 | raising a kind's count by n moves only that kind's entry, by exactly n |
| CardGeneration.BumpByOne | remnote-flashcard-generator/src/card_generator.py:305-317 | raising a kind's count by n and then by one is raising it by n+1, which is how the per-card increments add up |
| CardGeneration.Call | remnote-flashcard-generator/src/card_generator.py:242-246 | one model call records its request and receives the scripted reply for its call number |
| CardGeneration.ConceptCard | remnote-flashcard-generator/src/card_generator.py:249-261 | a concept card is made exactly when the separator is non-empty and occurs in the reply; its front and back are the stripped text before and after the first occurrence, with the topic as tag and the parent context as parent |
| CardGeneration.ConceptCardSplitsReply | remnote-flashcard-generator/src/card_generator.py:250-255 | the reply is front + separator + back, the front holds no earlier occurrence of the separator, and both sides come out stripped |
| CardGeneration.KeptLines | remnote-flashcard-generator/src/card_generator.py:302 | a line is kept exactly when it is the stripped form of a reply line holding the separator, and there are never more kept lines than reply lines |
| CardGeneration.KeptLinesAppend | remnote-flashcard-generator/src/card_generator.py:302 | the filter keeps the reply's order: the kept lines of a concatenation are those of each part in turn |
| CardGeneration.KeptLinesAll | remnote-flashcard-generator/src/card_generator.py:302 | when every line holds the separator, kept line i is line i stripped |
| CardGeneration.ClozeLines | remnote-flashcard-generator/src/card_generator.py:357-358 | a line is kept exactly when it is the stripped form of a reply line holding both `{{` and `}}` |
| CardGeneration.ClozeLinesAppend | remnote-flashcard-generator/src/card_generator.py:357-358 | the cloze filter keeps the reply's order: the kept lines of a concatenation are those of each part in turn |
| CardGeneration.BasicCard | remnote-flashcard-generator/src/card_generator.py:307-315 | a basic card's front and back are the stripped halves of its line around the first separator, with the topic as tag and the parent context as parent |
| CardGeneration.BasicCards | remnote-flashcard-generator/src/card_generator.py:305-317 | a batch never has more cards than lines (which cards, and in what order, the four lemmas below state) |
| CardGeneration.BasicCardsFrom | remnote-flashcard-generator/src/card_generator.py:305-317 | every card of a batch is the basic card of one of its lines that holds the separator |
| CardGeneration.BasicCardsOf | remnote-flashcard-generator/src/card_generator.py:305-317 | every line that holds the separator gives its basic card to the batch |
| CardGeneration.BasicCardsAppend | remnote-flashcard-generator/src/card_generator.py:305-317 | the cards keep the lines' order: the batch of a concatenation is the batches of its parts in turn |
| CardGeneration.BasicCardsAll | remnote-flashcard-generator/src/card_generator.py:305-317 | when every line holds the separator, card i is the card of line i |
| CardGeneration.BasicHead | remnote-flashcard-generator/src/card_generator.py:306 | a line gives one basic card when it holds the separator and none otherwise |
| CardGeneration.BasicCardsCons | remnote-flashcard-generator/src/card_generator.py:305-317 | the basic cards of a line list are those of its first line followed by those of the rest |
| CardGeneration.BasicCardsShape | remnote-flashcard-generator/src/card_generator.py:308-315 | every basic card is a forward basic card under the parent context, tagged with the topic |
| CardGeneration.ConceptCards | remnote-flashcard-generator/src/card_generator.py:248-260 | the concept parse gives one card exactly when the separator is non-empty and occurs in the reply, and that card is ConceptCard's split of the reply |
| CardGeneration.ClozeCards | remnote-flashcard-generator/src/card_generator.py:361-371 | one cloze card per line, card i made from line i, so the cards keep the lines' order |
| CardGeneration.ParseBasic | remnote-flashcard-generator/src/card_generator.py:300-317 | an empty separator gives no card, and at most max_cards cards come out |
| CardGeneration.ParseBasicFrom | remnote-flashcard-generator/src/card_generator.py:300-317 | each parsed basic card is the card of a reply line that holds the separator before and after stripping |
| CardGeneration.ParseBasicComplete | remnote-flashcard-generator/src/card_generator.py:300-317 | when max_cards does not cut the list, every reply line holding the separator before and after stripping gives its card |
| CardGeneration.ParseCloze | remnote-flashcard-generator/src/card_generator.py:356-371 | at most max_cards cloze cards come out |
| CardGeneration.ParseClozeFrom | remnote-flashcard-generator/src/card_generator.py:356-371 | each parsed cloze card is the card of a reply line holding both braces, stripped |
| CardGeneration.ParseClozeComplete | remnote-flashcard-generator/src/card_generator.py:356-371 | when max_cards does not cut the list, every reply line holding both braces gives its card |
| CardGeneration.DescriptorCards | remnote-flashcard-generator/src/card_generator.py:389-402 | one descriptor card per key concept, for the first max_cards concepts |
| CardGeneration.DescriptorCardsShape | remnote-flashcard-generator/src/card_generator.py:391-400 | the i-th descriptor card has the i-th key concept as front, "Key concept of <topic>" as back, the topic as parent, and both directions |
| CardGeneration.MultilineCards | remnote-flashcard-generator/src/card_generator.py:463-484 | one multi-line concept card exactly when the content is longer than 200 characters, with the topic name as front, the content as back and the default difficulty |
| CardGeneration.ListAnswerCards | remnote-flashcard-generator/src/card_generator.py:486-507 | one list-answer card exactly when there are at least two key concepts, listing them all under "What are the key concepts of <topic>?" |
| CardGeneration.MultipleChoiceCards | remnote-flashcard-generator/src/card_generator.py:509-534 | one multiple-choice card exactly when there are at least three examples, with the first four as choices and the first as the correct one |
| CardGeneration.ProduceConcept | remnote-flashcard-generator/src/card_generator.py:223-266 | the concept generator leaves the fingerprint set alone and makes at most one call; disabled it does nothing, a failed call yields no card and no counted call, and a successful reply yields exactly ConceptCards of the reply with one more counted call and the concept count raised by the card count |
| CardGeneration.ProduceBasic | remnote-flashcard-generator/src/card_generator.py:268-322 | the basic generator leaves the fingerprint set alone and makes at most one call; disabled it does nothing, a failed call yields no card and no counted call, and a successful reply yields exactly the ParseBasic cards of the reply, at most max_cards of them, with one more counted call and the basic count raised by their number |
| CardGeneration.ProduceCloze | remnote-flashcard-generator/src/card_generator.py:324-376 | the cloze generator leaves the fingerprint set alone and makes at most one call; disabled it does nothing, a failed call yields no card and no counted call, and a successful reply yields exactly the ParseCloze cards of the reply, at most max_cards of them, with one more counted call and the cloze count raised by their number |
| CardGeneration.ProduceDescriptor | remnote-flashcard-generator/src/card_generator.py:378-407 | disabled, the descriptor generator does nothing; enabled, it yields exactly DescriptorCards (one per key concept up to max_cards) and raises the descriptor count by their number, with no call |
| CardGeneration.ProduceMultiline | remnote-flashcard-generator/src/card_generator.py:463-484 | yields exactly MultilineCards (one card when the content is longer than 200 characters) and raises the multi-line count by their number, with no call |
| CardGeneration.ProduceListAnswer | remnote-flashcard-generator/src/card_generator.py:486-507 | yields exactly ListAnswerCards (one card when there are at least two key concepts) and raises the list-answer count by their number, with no call |
| CardGeneration.ProduceMultipleChoice | remnote-flashcard-generator/src/card_generator.py:509-534 | yields exactly MultipleChoiceCards (one card when there are at least three examples) and raises the multiple-choice count by their number, with no call |
| CardGeneration.ProduceKeepsFilter | remnote-flashcard-generator/src/card_generator.py:223-534 | no generator touches the fingerprint set or the card total; one that asks the model makes at most one call, and one that derives its cards makes none |
| CardGeneration.ProduceNeedsSource | remnote-flashcard-generator/src/card_generator.py:223-534 | a generator that yields cards either had a successful call or had topic fields to derive them from |
| CardGeneration.ConceptBlockLast | remnote-flashcard-generator/src/card_generator.py:157-161 | appending the concept block runs the generator on the state reached so far and appends what the fingerprint filter admits |
| CardGeneration.BasicBlockLast | remnote-flashcard-generator/src/card_generator.py:163-168 | the same for the basic block |
| CardGeneration.ClozeBlockLast | remnote-flashcard-generator/src/card_generator.py:170-176 | the same for the cloze block, which runs only when the topic has key concepts or examples |
| CardGeneration.DescriptorBlockLast | remnote-flashcard-generator/src/card_generator.py:177-183 | the same for the descriptor block, which runs only when its kind is enabled |
| CardGeneration.MultilineBlockLast | remnote-flashcard-generator/src/card_generator.py:185-191 | the same for the multi-line block, which runs only when its kind is enabled |
| CardGeneration.ListAnswerBlockLast | remnote-flashcard-generator/src/card_generator.py:193-199 | the same for the list-answer block, which runs only when its kind is enabled |
| CardGeneration.MultipleChoiceBlockLast | remnote-flashcard-generator/src/card_generator.py:201-207 | the same for the multiple-choice block, which runs only when its kind is enabled |
| CardGeneration.GenTopicUnfold | remnote-flashcard-generator/src/card_generator.py:154-221 | a topic's cards are its own cards followed by its subtopics' cards, after which the topic counter rises by one |
| CardGeneration.GenTopicCompose | remnote-flashcard-generator/src/card_generator.py:154-221 | the same equation, for states named by the caller |
| CardGeneration.GenForestCons | remnote-flashcard-generator/src/card_generator.py:210-212 | the subtopics are generated in order, each starting from the state the previous one left |
| CardGeneration.HashesConcat | remnote-flashcard-generator/src/card_generator.py:409-419 | the fingerprints of two batches together are the union of their fingerprints |
| CardGeneration.DistinctConcat | remnote-flashcard-generator/src/card_generator.py:409-419 | two batches without repeated fingerprints and with no fingerprint in common give a batch without repeats |
| CardGeneration.DistinctCardinality | remnote-flashcard-generator/src/card_generator.py:409-419 | a batch without repeated fingerprints has as many fingerprints as cards |
| CardGeneration.AcceptsTrans | remnote-flashcard-generator/src/card_generator.py:409-419 | two accepted batches in a row are one accepted batch: fresh distinct fingerprints, a set grown by exactly them, and a total raised by their number |
| CardGeneration.AdmitSpec | remnote-flashcard-generator/src/card_generator.py:159-207 | the fingerprint filter keeps only candidates whose fingerprint is new, with no repeats; the set grows by exactly their fingerprints; every rejected candidate counts as a duplicate avoided; nothing else in the state changes |
| CardGeneration.IdenticalCandidatesYieldOne | remnote-flashcard-generator/src/card_generator.py:164-168 | three identical new candidates give one card and two avoided duplicates |
| CardGeneration.GuardedAccepts | remnote-flashcard-generator/src/card_generator.py:170-207 | a generator that is switched off or that leaves the set alone yields an accepted batch through the filter |
| CardGeneration.RunBlockAccepts | remnote-flashcard-generator/src/card_generator.py:157-207 | each block yields an accepted batch |
| CardGeneration.RunBlocksAccepts | remnote-flashcard-generator/src/card_generator.py:157-207 | any run of blocks yields an accepted batch |
| CardGeneration.OwnCardsAccepts | remnote-flashcard-generator/src/card_generator.py:157-207 | a topic's own cards form an accepted batch |
| CardGeneration.GenTopicAccepts | remnote-flashcard-generator/src/card_generator.py:139-221 | everything a topic and its subtopics generate is free of duplicate fingerprints, new to the set, recorded in it, and counted in the total |
| CardGeneration.AcceptsIgnoresTopicCount | remnote-flashcard-generator/src/card_generator.py:214 | raising the topic counter keeps a batch accepted |
| CardGeneration.GenForestAccepts | remnote-flashcard-generator/src/card_generator.py:210-212 | the cards of a list of subtopics form an accepted batch |
| CardGeneration.TotalMatchesSeen | remnote-flashcard-generator/src/card_generator.py:409-419 | when the card total equals the size of the fingerprint set before a topic, it still does afterwards |
| CardGeneration.BlockNothing | remnote-flashcard-generator/tests/test_basic.py:212-222 | when every model call fails and the topic derives nothing for a block, that block yields no card and later calls still fail |
| CardGeneration.RunBlocksNothing | remnote-flashcard-generator/tests/test_basic.py:212-222 | the same for a run of blocks |
| CardGeneration.OwnCardsNothing | remnote-flashcard-generator/tests/test_basic.py:212-222 | the same for a topic's own cards |
| CardGeneration.FailingGeneratorYieldsNothing | remnote-flashcard-generator/tests/test_basic.py:212-222 | with a generator that always fails and topics that derive nothing, generation returns no card for the whole tree |
| CardGeneration.FailingForestYieldsNothing | remnote-flashcard-generator/tests/test_basic.py:212-222 | the same for a list of topics |
| CardGeneration.CardGenerator.constructor | remnote-flashcard-generator/src/card_generator.py:119-137 | a new generator has an empty fingerprint set and all counters at zero |
| CardGeneration.CardGenerator.IsUniqueCard | remnote-flashcard-generator/src/card_generator.py:409-414 | answers whether the fingerprint is new; a repeated one raises the duplicates counter and nothing else |
| CardGeneration.CardGenerator.RegisterCard | remnote-flashcard-generator/src/card_generator.py:416-419 | adds the fingerprint to the set and raises the card total by one |
| CardGeneration.CardGenerator.Generate | remnote-flashcard-generator/src/card_generator.py:242-246 | a model call returns the scripted reply and records the request |
| CardGeneration.CardGenerator.AcceptAll | remnote-flashcard-generator/src/card_generator.py:165-168 | the loop over candidates appends exactly what the fingerprint filter admits and leaves the filter's state |
| CardGeneration.CardGenerator.GenerateConceptCard | remnote-flashcard-generator/src/card_generator.py:223-266 | returns the card and the state ProduceConcept gives: ConceptCards of a successful reply, one counted call and the concept count raised |
| CardGeneration.CardGenerator.GenerateBasicCards | remnote-flashcard-generator/src/card_generator.py:268-322 | returns the cards and the state ProduceBasic gives: the ParseBasic cards of a successful reply, at most max_cards, counted once per card |
| CardGeneration.CardGenerator.BasicFromLines | remnote-flashcard-generator/src/card_generator.py:305-317 | the loop over the kept lines builds exactly BasicCards of them, so each card is the card of one line holding the separator, in the lines' order, and raises the basic count by their number |
| CardGeneration.CardGenerator.BasicLine | remnote-flashcard-generator/src/card_generator.py:306-317 | one line appends its basic card, if any, and keeps the basic count in step |
| CardGeneration.CardGenerator.GenerateClozeCards | remnote-flashcard-generator/src/card_generator.py:324-376 | returns the cards and the state ProduceCloze gives: the ParseCloze cards of a successful reply, at most max_cards, counted once per card |
| CardGeneration.CardGenerator.ClozeLine | remnote-flashcard-generator/src/card_generator.py:362-371 | one pass of the cloze loop appends the line's card and keeps the cloze count equal to the number of cards |
| CardGeneration.CardGenerator.ClozeFromLines | remnote-flashcard-generator/src/card_generator.py:361-371 | the loop builds one cloze card per line and raises the cloze count by the number of lines |
| CardGeneration.CardGenerator.GenerateDescriptorCards | remnote-flashcard-generator/src/card_generator.py:378-407 | returns the cards and the state ProduceDescriptor gives: DescriptorCards when enabled, with the descriptor count raised by their number |
| CardGeneration.CardGenerator.DescriptorFromConcepts | remnote-flashcard-generator/src/card_generator.py:391-402 | the loop builds one descriptor card per concept, in order, and raises the descriptor count by their number |
| CardGeneration.CardGenerator.GenerateMultilineCards | remnote-flashcard-generator/src/card_generator.py:463-484 | returns the cards and the state ProduceMultiline gives: MultilineCards, with the multi-line count raised |
| CardGeneration.CardGenerator.GenerateListAnswerCards | remnote-flashcard-generator/src/card_generator.py:486-507 | returns the cards and the state ProduceListAnswer gives: ListAnswerCards, with the list-answer count raised |
| CardGeneration.CardGenerator.GenerateMultipleChoiceCards | remnote-flashcard-generator/src/card_generator.py:509-534 | returns the cards and the state ProduceMultipleChoice gives: MultipleChoiceCards, with the multiple-choice count raised |
| CardGeneration.CardGenerator.GenerateOwnCards | remnote-flashcard-generator/src/card_generator.py:156-207 | the seven blocks in order yield the topic's own cards and state |
| CardGeneration.CardGenerator.StepConcept | remnote-flashcard-generator/src/card_generator.py:157-161 | runs the concept block on the state reached so far |
| CardGeneration.CardGenerator.StepBasic | remnote-flashcard-generator/src/card_generator.py:163-168 | runs the basic block on the state reached so far |
| CardGeneration.CardGenerator.StepCloze | remnote-flashcard-generator/src/card_generator.py:170-176 | runs the cloze block, when the topic has key concepts or examples |
| CardGeneration.CardGenerator.StepDescriptor | remnote-flashcard-generator/src/card_generator.py:177-183 | runs the descriptor block, when enabled |
| CardGeneration.CardGenerator.StepMultiline | remnote-flashcard-generator/src/card_generator.py:185-191 | runs the multi-line block, when enabled |
| CardGeneration.CardGenerator.StepListAnswer | remnote-flashcard-generator/src/card_generator.py:193-199 | runs the list-answer block, when enabled |
| CardGeneration.CardGenerator.StepMultipleChoice | remnote-flashcard-generator/src/card_generator.py:201-207 | runs the multiple-choice block, when enabled |
| CardGeneration.CardGenerator.GenerateCards | remnote-flashcard-generator/src/card_generator.py:139-221 | returns exactly the cards and state of the session model for the topic tree, so every property proved of the session model (no duplicate fingerprints, set and total in step, nothing from a failing generator) holds of it |
| CardGeneration.CardGenerator.CountTopic | remnote-flashcard-generator/src/card_generator.py:214 | raises the topic counter by one and changes nothing else |
| CardGeneration.CardGenerator.GenerateSubtopicCards | remnote-flashcard-generator/src/card_generator.py:210-212 | generates the subtopics in order, matching the session model |
| CardGeneration.CardGenerator.ResetStats | remnote-flashcard-generator/src/card_generator.py:540-549 | clears the fingerprint set and zeroes every counter, so the card total again equals the set's size |
| RemNoteFormatter.DisabledWins | remnote-flashcard-generator/src/remnote_formatter.py:162-167 | a disabled card of any type is written as escaped front, ` =- `, escaped back, and both texts count towards the escape counter |
| RemNoteFormatter.ClozeVerbatim | remnote-flashcard-generator/src/remnote_formatter.py:186-188 | an enabled cloze card is written as its front, unescaped, whether or not it holds a valid cloze |
| RemNoteFormatter.NoneOnlyForEmptyList | remnote-flashcard-generator/src/remnote_formatter.py:246-255 | the card text is Python's None exactly for an enabled list-answer card without items: the fallback line sits inside a comment |
| RemNoteFormatter.PlainCard | remnote-flashcard-generator/src/remnote_formatter.py:166-209 | a card with plain front and back is written as front, the delimiter its type and direction select, and back |
| RemNoteFormatter.ConceptExamples | remnote-flashcard-generator/tests/test_formatter_features.py:21-51 | the concept examples are written with `:>`, `:<` or `::` according to the direction |
| RemNoteFormatter.DisabledExample | remnote-flashcard-generator/tests/test_formatter_features.py:54-62 | the disabled example is written with `=-` |
| RemNoteFormatter.BasicDescriptorExamples | remnote-flashcard-generator/tests/test_formatter_features.py:65-95 | backward and both-ways basic cards use `<<` and `<>`; backward descriptors use `;<` |
| RemNoteFormatter.MultilineLayout | remnote-flashcard-generator/src/remnote_formatter.py:231-244 | a two-part multi-line concept is the escaped front, ` ::`, a line break, four spaces and the back with every literal \\n indented; its length is fixed by the parts |
| RemNoteFormatter.FlatStep | remnote-flashcard-generator/src/remnote_formatter.py:141-148 | one more card adds one more flat line and that card's escapes |
| RemNoteFormatter.FlatLinesByIndex | remnote-flashcard-generator/src/remnote_formatter.py:137-149 | the flat layout has one line per card, in order |
| RemNoteFormatter.EntryLinesByIndex | remnote-flashcard-generator/src/remnote_formatter.py:109-135 | the hierarchical layout has one line per entry, in order |
| RemNoteFormatter.NestedEscapes | remnote-flashcard-generator/src/remnote_formatter.py:120-122 | writing children one level down escapes exactly what writing them flat does |
| RemNoteFormatter.KidsMembers | remnote-flashcard-generator/src/remnote_formatter.py:103-105 | the cards grouped under a text are exactly the cards whose parent is that non-empty text |
| RemNoteFormatter.RootsMembers | remnote-flashcard-generator/src/remnote_formatter.py:103-107 | the root cards are exactly the cards without a parent |
| RemNoteFormatter.KidsKeys | remnote-flashcard-generator/src/remnote_formatter.py:103-105 | a text is a key of the grouping exactly when some card is grouped under it |
| RemNoteFormatter.ParentKeysDistinct | remnote-flashcard-generator/src/remnote_formatter.py:100-107 | the parent keys come in first-seen order without repeats, and they are exactly the set of parents |
| RemNoteFormatter.LevelsAreHeadings | remnote-flashcard-generator/src/remnote_formatter.py:336-337 | the hierarchical-levels statistic is the number of parent headings |
| RemNoteFormatter.NestedShape | remnote-flashcard-generator/src/remnote_formatter.py:120-122 | the i-th nested line is the i-th child one level down |
| RemNoteFormatter.ParentSectionLength | remnote-flashcard-generator/src/remnote_formatter.py:124-133 | the parent section has one heading per key plus its children |
| RemNoteFormatter.KidsTotalAll | remnote-flashcard-generator/src/remnote_formatter.py:103-107 | every card is either a root or grouped under exactly one key |
| RemNoteFormatter.ParentSectionCount | remnote-flashcard-generator/src/remnote_formatter.py:124-133 | the parent section writes one heading per parent and every card that has a parent once |
| RemNoteFormatter.RootSectionHas | remnote-flashcard-generator/src/remnote_formatter.py:111-122 | what a root's block holds appears in the root section |
| RemNoteFormatter.ParentSectionHas | remnote-flashcard-generator/src/remnote_formatter.py:124-133 | each key's heading and each of its children appear in the parent section |
| RemNoteFormatter.EveryCardWritten | remnote-flashcard-generator/src/remnote_formatter.py:93-135 | every card is written: a root as a root line, any other card under its parent's heading |
| RemNoteFormatter.ChildUnderRoot | remnote-flashcard-generator/src/remnote_formatter.py:117-122 | a child whose parent is a root card's front is written under that root |
| RemNoteFormatter.ChildWrittenTwice | remnote-flashcard-generator/src/remnote_formatter.py:111-133 | such a child is written twice: once under the root and again under its parent's heading, because the second loop skips nothing |
| RemNoteFormatter.Tally | remnote-flashcard-generator/src/remnote_formatter.py:328-333 | the count for a value is its multiplicity in the list, and only values that occur get a key |
| RemNoteFormatter.RootBlockGrouped | remnote-flashcard-generator/src/remnote_formatter.py:117-122 | with the grouping built, a root's block is its line followed by the children of its front and then of its back |
| RemNoteFormatter.RootBlockEntries | remnote-flashcard-generator/src/remnote_formatter.py:112-122 | a root's block is written as the root line followed by its children's lines, with the root's escapes first |
| RemNoteFormatter.GroupEntries | remnote-flashcard-generator/src/remnote_formatter.py:129-132 | a group is written as `# parent` followed by its children's lines, and the heading escapes nothing |
| RemNoteFormatter.ParentSectionStep | remnote-flashcard-generator/src/remnote_formatter.py:126-133 | the next parent key appends its group's lines and escapes |
| RemNoteFormatter.GroupingKeyed | remnote-flashcard-generator/src/remnote_formatter.py:100-107 | the grouping maps each parent key, in order, to exactly its children, and the keys do not repeat |
| RemNoteFormatter.GroupStep | remnote-flashcard-generator/src/remnote_formatter.py:103-107 | appending one card extends the grouping for its parent, or leaves it alone for a root |
| RemNoteFormatter.GroupByParent | remnote-flashcard-generator/src/remnote_formatter.py:100-107 | the loop builds the grouping of the cards and the list of roots |
| RemNoteFormatter.Formatter.constructor | remnote-flashcard-generator/src/remnote_formatter.py:55-58 | a new formatter starts with zero statistics |
| RemNoteFormatter.Formatter.ResetStats | remnote-flashcard-generator/src/remnote_formatter.py:339-341 | resets the statistics to zero |
| RemNoteFormatter.Formatter.EscapeSpecialChars | remnote-flashcard-generator/src/remnote_formatter.py:270-321 | returns the escaped text and raises the escape counter by one exactly when escaping changed the text |
| RemNoteFormatter.Formatter.FormatCloze | remnote-flashcard-generator/src/remnote_formatter.py:213-229 | returns the front unchanged |
| RemNoteFormatter.Formatter.FormatMultilineConcept | remnote-flashcard-generator/src/remnote_formatter.py:231-244 | returns the specified multi-line text; it escapes the back only when the triple delimiter is off |
| RemNoteFormatter.Formatter.FormatListAnswer | remnote-flashcard-generator/src/remnote_formatter.py:246-255 | returns `front >>1.` for a card with items and None otherwise, escaping only the front |
| RemNoteFormatter.Formatter.FormatMultipleChoice | remnote-flashcard-generator/src/remnote_formatter.py:257-268 | returns `front >>A)` for two or more items and the basic fallback otherwise |
| RemNoteFormatter.Formatter.FormatCard | remnote-flashcard-generator/src/remnote_formatter.py:151-211 | returns the card text its type and direction select and raises the counter by that card's escapes |
| RemNoteFormatter.Formatter.WriteNested | remnote-flashcard-generator/src/remnote_formatter.py:120-122 | writes the children one level down |
| RemNoteFormatter.Formatter.WriteRootBlock | remnote-flashcard-generator/src/remnote_formatter.py:112-122 | writes a root and, when its front or back is a key, the children of both |
| RemNoteFormatter.Formatter.WriteRoots | remnote-flashcard-generator/src/remnote_formatter.py:111-122 | the loop over root cards writes exactly the root section |
| RemNoteFormatter.Formatter.WriteGroup | remnote-flashcard-generator/src/remnote_formatter.py:128-133 | writes one parent heading with its children |
| RemNoteFormatter.Formatter.WriteGroups | remnote-flashcard-generator/src/remnote_formatter.py:124-133 | the loop over the grouping writes exactly the parent section, in key order |
| RemNoteFormatter.Formatter.WriteKeyedGroups | remnote-flashcard-generator/src/remnote_formatter.py:125-133 | the loop over the keys writes each group once, tracking processed parents |
| RemNoteFormatter.Formatter.WriteNextGroup | remnote-flashcard-generator/src/remnote_formatter.py:126-133 | the next key is never processed before, so its group is always written |
| RemNoteFormatter.Formatter.FormatHierarchical | remnote-flashcard-generator/src/remnote_formatter.py:93-135 | the output is the root section followed by the parent section, joined by line breaks, and the counter rises by their escapes |
| RemNoteFormatter.Formatter.FlatRow | remnote-flashcard-generator/src/remnote_formatter.py:141-148 | one card becomes `# `, its text and its `#tag`s |
| RemNoteFormatter.Formatter.FormatFlat | remnote-flashcard-generator/src/remnote_formatter.py:137-149 | the flat output is one line per card, in order, joined by line breaks |
| RemNoteFormatter.Formatter.CalculateFinalStats | remnote-flashcard-generator/src/remnote_formatter.py:323-337 | the statistics become the card total, the counts by type and direction, and the number of distinct parents, keeping the escape counter |
| RemNoteFormatter.Formatter.FormatCards | remnote-flashcard-generator/src/remnote_formatter.py:60-91 | no cards give the empty text and zero statistics; otherwise the chosen layout, with final statistics whose escape counter is that layout's |
| FixedFormatter.DisabledOnlyConceptBasic | remnote-flashcard-generator/src/remnote_formatter_fixed.py:171-197 | the revised formatter writes `=-` exactly for disabled concept and basic cards |
| FixedFormatter.AlternateOnlyForwardBasic | remnote-flashcard-generator/src/remnote_formatter_fixed.py:184-195 | `==` is written exactly for forward basic cards with the alternate syntax on |
| FixedFormatter.DescriptorTwoWays | remnote-flashcard-generator/src/remnote_formatter_fixed.py:203-207 | descriptors get `;<` when backward and `;;` otherwise, so a forward descriptor loses the `;>` the first formatter gives it |
| FixedFormatter.SameDelimiterElsewhere | remnote-flashcard-generator/src/remnote_formatter_fixed.py:156-220 | apart from disabled cards, the alternate syntax and forward descriptors, both formatters choose the same delimiter |
| FixedFormatter.ItemLinesByIndex | remnote-flashcard-generator/src/remnote_formatter_fixed.py:284-286 | one line per list item, indented by four spaces, with the item escaped |
| FixedFormatter.BodyLinesShape | remnote-flashcard-generator/src/remnote_formatter_fixed.py:263-266 | the triple-delimiter body keeps only non-blank lines, each written stripped after four spaces, and drops a line exactly when it is blank |
| FixedFormatter.MoveFirst | remnote-flashcard-generator/src/remnote_formatter_fixed.py:307-309 | moving one choice to the front keeps the same choices |
| FixedFormatter.ReorderedIsPermutation | remnote-flashcard-generator/src/remnote_formatter_fixed.py:303-309 | the choice reordering is a permutation: a positive index in range moves that choice first, a negative one counts from the end as `list.pop` does, and 0 or an index past the end leave the order alone |
| FixedFormatter.ClozeVerbatim | remnote-flashcard-generator/src/remnote_formatter_fixed.py:199-201 | a cloze card is its front, unescaped, plus the extra-detail line; front and back still count as escaped |
| FixedFormatter.ExtraDetailVerbatim | remnote-flashcard-generator/src/remnote_formatter_fixed.py:222-224 | a card with extra detail ends with that detail, unescaped |
| FixedFormatter.ListShape | remnote-flashcard-generator/src/remnote_formatter_fixed.py:281-287 | a list card is `front >>1.` followed by one indented escaped line per item |
| FixedFormatter.ChoiceShape | remnote-flashcard-generator/src/remnote_formatter_fixed.py:298-316 | a multiple-choice card is `front >>A)` followed by one indented escaped line per choice, in the reordered order, which holds the same choices |
| FixedFormatter.CorrectChoiceFirst | remnote-flashcard-generator/src/remnote_formatter_fixed.py:306-309 | with a positive index in range, the first choice written is the correct one |
| FixedFormatter.Spaces | remnote-flashcard-generator/src/remnote_formatter_fixed.py:129 | the indent for a level is four spaces per level |
| FixedFormatter.CycleNeverEnds | remnote-flashcard-generator/src/remnote_formatter_fixed.py:127-139 | a card that is its own child makes the recursive descent run out of depth |
| FixedFormatter.OwnParentNeverEnds | remnote-flashcard-generator/src/remnote_formatter_fixed.py:127-139 | a card whose parent is its own front or back never finishes descending |
| FixedFormatter.LeafEnds | remnote-flashcard-generator/src/remnote_formatter_fixed.py:127-139 | a card without children adds nothing below it |
| FixedFormatter.DescendLevels | remnote-flashcard-generator/src/remnote_formatter_fixed.py:127-139 | everything below a card sits deeper than the card's own level |
| FixedFormatter.WalkLevels | remnote-flashcard-generator/src/remnote_formatter_fixed.py:134-139 | children are written at their level and their descendants deeper |
| FixedFormatter.NestedTwoDeep | remnote-flashcard-generator/src/remnote_formatter_fixed.py:108-113 | a root's grandchild is written two levels down |
| FixedFormatter.Regrouped | remnote-flashcard-generator/src/remnote_formatter_fixed.py:116-123 | a card whose parent is not a root's front is written one level down under a parent line |
| FixedFormatter.GrandchildWrittenTwice | remnote-flashcard-generator/src/remnote_formatter_fixed.py:108-123 | a grandchild whose parent is not a root's front is written twice: two levels down under the root and again one level down under its parent line |
| FixedFormatter.HierarchySplit | remnote-flashcard-generator/src/remnote_formatter_fixed.py:87-125 | the output is the root rows followed by the remaining groups, for lines and for escapes |
| FixedFormatter.GroupStep | remnote-flashcard-generator/src/remnote_formatter_fixed.py:117-123 | the next key appends its group: nothing when it is already processed, otherwise the parent line and its children |
| FixedFormatter.HeadingRows | remnote-flashcard-generator/src/remnote_formatter_fixed.py:119-122 | a group is the bare parent line followed by its children one level down, and the parent line escapes nothing |
| FixedFormatter.LevelOneStep | remnote-flashcard-generator/src/remnote_formatter_fixed.py:120-122 | one more child adds one indented line and its escapes |
| FixedFormatter.FlatStep | remnote-flashcard-generator/src/remnote_formatter_fixed.py:145-152 | one more card adds one flat line and its escapes |
| FixedFormatter.DelimiterFree | remnote-flashcard-generator/src/remnote_formatter_fixed.py:467-474 | a line holding none of the six delimiters counts zero |
| FixedFormatter.TwoDelimitersConflict | remnote-flashcard-generator/src/remnote_formatter_fixed.py:461-477 | a line holding two different delimiters is a conflict |
| FixedFormatter.Formatter.constructor | remnote-flashcard-generator/src/remnote_formatter_fixed.py:49-52 | a new formatter starts with zero statistics |
| FixedFormatter.Formatter.ResetStats | remnote-flashcard-generator/src/remnote_formatter_fixed.py:390-392 | resets the statistics to zero |
| FixedFormatter.Formatter.EscapeSpecialChars | remnote-flashcard-generator/src/remnote_formatter_fixed.py:320-372 | returns the escaped text and raises the counter exactly when escaping changed it |
| FixedFormatter.Formatter.EscapeItems | remnote-flashcard-generator/src/remnote_formatter_fixed.py:284-286 | escapes each item into an indented line, counting each changed item |
| FixedFormatter.Formatter.FormatCloze | remnote-flashcard-generator/src/remnote_formatter_fixed.py:228-245 | returns the front unchanged |
| FixedFormatter.Formatter.BodyBlock | remnote-flashcard-generator/src/remnote_formatter_fixed.py:263-266 | the loop keeps exactly the non-blank lines, stripped and indented |
| FixedFormatter.Formatter.FormatMultilineConcept | remnote-flashcard-generator/src/remnote_formatter_fixed.py:247-273 | returns the triple-delimiter or the two-line layout and counts both escaped texts |
| FixedFormatter.Formatter.FormatListAnswer | remnote-flashcard-generator/src/remnote_formatter_fixed.py:275-289 | returns the list layout for a card with items and the basic fallback otherwise |
| FixedFormatter.Formatter.PutCorrectFirst | remnote-flashcard-generator/src/remnote_formatter_fixed.py:303-309 | returns the reordered choices |
| FixedFormatter.Formatter.FormatMultipleChoice | remnote-flashcard-generator/src/remnote_formatter_fixed.py:291-318 | returns the choice layout for two or more items and the basic fallback otherwise, counting what it escaped |
| FixedFormatter.Formatter.FormatLayout | remnote-flashcard-generator/src/remnote_formatter_fixed.py:171-220 | returns the layout the card's type and direction select |
| FixedFormatter.Formatter.FormatCard | remnote-flashcard-generator/src/remnote_formatter_fixed.py:156-226 | returns the card text, with any extra detail, and raises the counter by the card's escapes |
| FixedFormatter.Formatter.FormatRow | remnote-flashcard-generator/src/remnote_formatter_fixed.py:135-136 | writes a card at its indent |
| FixedFormatter.Formatter.AddChildCards | remnote-flashcard-generator/src/remnote_formatter_fixed.py:127-139 | the recursion succeeds exactly when the descent finishes within the depth bound, and then appends the descendants' lines in order |
| FixedFormatter.Formatter.AddEachChild | remnote-flashcard-generator/src/remnote_formatter_fixed.py:134-139 | the loop over children appends each child and its own descendants, matching the walk |
| FixedFormatter.Formatter.WriteRoots | remnote-flashcard-generator/src/remnote_formatter_fixed.py:107-113 | writes each root at level 0 followed by its descendants |
| FixedFormatter.Formatter.WriteLevelOne | remnote-flashcard-generator/src/remnote_formatter_fixed.py:120-122 | writes the children one level down |
| FixedFormatter.Formatter.WriteGroups | remnote-flashcard-generator/src/remnote_formatter_fixed.py:115-123 | the loop writes exactly the groups of parents that are not a root's front, in key order |
| FixedFormatter.Formatter.WriteKeyedGroups | remnote-flashcard-generator/src/remnote_formatter_fixed.py:116-123 | the loop over the keys starts with the roots' fronts processed and writes each remaining group once |
| FixedFormatter.Formatter.WriteNextGroup | remnote-flashcard-generator/src/remnote_formatter_fixed.py:117-123 | writes the next key's group unless it was processed, and keeps the processed set within roots' fronts and earlier keys |
| FixedFormatter.Formatter.FormatHierarchical | remnote-flashcard-generator/src/remnote_formatter_fixed.py:87-125 | succeeds exactly when the hierarchy rows exist within the depth bound, returns them joined by line breaks and counts their escapes |
| FixedFormatter.Formatter.FlatRow | remnote-flashcard-generator/src/remnote_formatter_fixed.py:145-152 | one card becomes its text followed by its `#tag`s, without a prefix |
| FixedFormatter.Formatter.FormatFlat | remnote-flashcard-generator/src/remnote_formatter_fixed.py:141-154 | the flat output is one line per card, in order |
| FixedFormatter.Formatter.CalculateFinalStats | remnote-flashcard-generator/src/remnote_formatter_fixed.py:374-388 | the statistics become the card total, the counts by type and direction, and the number of distinct parents |
| FixedFormatter.Formatter.FormatCards | remnote-flashcard-generator/src/remnote_formatter_fixed.py:54-85 | no cards give the empty text and zero statistics; otherwise the chosen layout with final statistics |
| FixedFormatter.Formatter.CheckForSyntaxConflicts | remnote-flashcard-generator/src/remnote_formatter_fixed.py:461-477 | the text has no conflict exactly when no line holds more than one delimiter occurrence |
| ConfigManager.SetPath | remnote-flashcard-generator/src/config_manager.py:209-218 | writing along a path needs mappings on the way; it adds the first key when missing and leaves every other top-level key as it was |
| ConfigManager.SetThenGet | remnote-flashcard-generator/src/config_manager.py:209-218 | after a successful write, reading the same path gives the written value |
| ConfigManager.SetKeepsApart | remnote-flashcard-generator/src/config_manager.py:209-218 | a write leaves every path that is neither a prefix nor an extension of it unchanged |
| ConfigManager.ConvertEnvValue | remnote-flashcard-generator/src/config_manager.py:222-234 | a temperature or retry delay becomes the parsed float and an unparsable one fails; a token or attempt count becomes the parsed int and an unparsable one fails; on any other path the conversion succeeds, giving a boolean exactly for "true"/"false" in any case (true for "true") and the given string otherwise; a failure carries Python's `int()` or `float()` message, the value shown through repr |
| ConfigManager.IntMessageQuote | remnote-flashcard-generator/src/config_manager.py:228 | an unparsable token count holding a single quote fails with `int()`'s message, the value shown in double quotes as repr does |
| ConfigManager.FloatOf | remnote-flashcard-generator/src/config_manager.py:226 | the float conversion succeeds exactly when the text parses, and otherwise fails with `float()`'s message showing the value's repr |
| ConfigManager.MappingsPart | remnote-flashcard-generator/src/config_manager.py:196-204 | the paths of the environment table are pairwise apart |
| ConfigManager.ApartTwo | remnote-flashcard-generator/src/config_manager.py:196-204 | two different two-key paths are apart |
| ConfigManager.OverriddenKeeps | remnote-flashcard-generator/src/config_manager.py:206-218 | overrides leave every path apart from all mapped paths unchanged |
| ConfigManager.OverriddenHolds | remnote-flashcard-generator/src/config_manager.py:206-218 | a value written by one override survives the later overrides |
| ConfigManager.OverriddenFailsOn | remnote-flashcard-generator/src/config_manager.py:206-218 | once an override fails, the remaining ones change nothing |
| ConfigManager.OverrideWins | remnote-flashcard-generator/src/config_manager.py:206-218 | a set, non-empty mapped variable ends up, converted, at its path |
| ConfigManager.NothingSetNothingChanges | remnote-flashcard-generator/src/config_manager.py:207-208 | without any set, non-empty mapped variable the configuration is returned unchanged |
| ConfigManager.ApiKeysNeverWritten | remnote-flashcard-generator/src/config_manager.py:202-203 | the two API-key variables, which have no path, never influence the configuration |
| ConfigManager.SameFiring | remnote-flashcard-generator/src/config_manager.py:206-208 | two environments that fire the same variables with the same values give the same result |
| ConfigManager.ApplyEnvOverrides | remnote-flashcard-generator/src/config_manager.py:189-220 | the loop over the table applies exactly the overrides of the specification |
| ConfigManager.Section | remnote-flashcard-generator/src/config_manager.py:240 | a missing section reads as an empty mapping; a present one must be a mapping |
| ConfigManager.TextOr | remnote-flashcard-generator/src/config_manager.py:242 | a missing key gives the default; a present one must be a string and is returned as is |
| ConfigManager.IntOr | remnote-flashcard-generator/src/config_manager.py:245 | a missing key gives the default; a present one must be an integer |
| ConfigManager.RealOr | remnote-flashcard-generator/src/config_manager.py:244 | a missing key gives the default; a float is taken as is and an integer is widened |
| ConfigManager.FlagOr | remnote-flashcard-generator/src/config_manager.py:254 | a missing key gives the default; a present one must be a boolean |
| ConfigManager.ModelOf | remnote-flashcard-generator/src/config_manager.py:243 | a missing model is None |
| ConfigManager.EmptyGivesDefaults | remnote-flashcard-generator/src/config_manager.py:236-308 | an empty configuration mapping gives exactly the documented defaults |
| ConfigManager.GetTwo | remnote-flashcard-generator/src/config_manager.py:209-214 | reading a two-key path goes through the section mapping |
| ConfigManager.LlmSection | remnote-flashcard-generator/src/config_manager.py:240-248 | a typed configuration's LLM part is read from the `llm` section |
| ConfigManager.LlmReads | remnote-flashcard-generator/src/config_manager.py:242-245 | the provider and token limit come from their keys or the defaults "anthropic" and 2000 |
| ConfigManager.ProviderRead | remnote-flashcard-generator/src/config_manager.py:242 | the typed provider is the raw `llm.provider` or "anthropic" when missing |
| ConfigManager.MaxTokensRead | remnote-flashcard-generator/src/config_manager.py:245 | the typed token limit is the raw `llm.max_tokens` or 2000 when missing |
| ConfigManager.EnvTokenLimitWins | remnote-flashcard-generator/src/config_manager.py:200 | when `REMNOTE_LLM_MAX_TOKENS` is set and loading succeeds, the typed token limit is that variable parsed as an integer |
| ConfigManager.NoErrorsIffValid | remnote-flashcard-generator/src/config_manager.py:326-358 | validation collects no error exactly when all six checks pass |
| ConfigManager.ValidationErrorsOrder | remnote-flashcard-generator/src/config_manager.py:328-353 | at most six errors; a bad provider comes first, a bad format last, and a bad token limit is reported exactly when it is out of 100..8000 |
| ConfigManager.DefaultsValid | remnote-flashcard-generator/src/config_manager.py:23-104 | the default configuration passes validation |
| ConfigManager.Bullets | remnote-flashcard-generator/src/config_manager.py:356 | one bullet per error |
| ConfigManager.BulletAt | remnote-flashcard-generator/src/config_manager.py:356 | the i-th bullet is `- ` followed by the i-th error's message |
| ConfigManager.AppendIf | remnote-flashcard-generator/src/config_manager.py:329-353 | a failed check appends its error, a passed one appends nothing |
| ConfigManager.ValidateConfig | remnote-flashcard-generator/src/config_manager.py:313-358 | succeeds with true exactly when the configuration is valid, and otherwise fails with the header and one bullet line per error |
| ConfigManager.ApiKey | remnote-flashcard-generator/src/config_manager.py:433-449 | "openai" and "anthropic", in any case, read their own variable; any other provider gets None |
| ConfigManager.ApiKeyIgnoresCase | remnote-flashcard-generator/src/config_manager.py:443-446 | the key lookup ignores the provider's case |
| LlmClient.Pow2 | remnote-flashcard-generator/src/llm_client.py:163 | the backoff factor `2 ** attempt` is at least 1 |
| LlmClient.BackoffDoubles | remnote-flashcard-generator/src/llm_client.py:163-171 | the first wait is the configured delay, and each later wait doubles the one before |
| LlmClient.RetryFromStep | remnote-flashcard-generator/src/llm_client.py:168-173 | a failed attempt that is not the last waits for its backoff and tries again |
| LlmClient.RetryFromShape | remnote-flashcard-generator/src/llm_client.py:157-177 | from attempt k, the loop makes between one and the remaining number of calls, sleeps once between consecutive calls with the doubling delays, and every call but the last raised |
| LlmClient.RetryFromResult | remnote-flashcard-generator/src/llm_client.py:157-177 | the loop returns exactly when some remaining attempt returns, and then returns that attempt's value; otherwise it used every attempt and raises the final error: the last rate-limit error itself, any other error wrapped as "All retry attempts failed: …" |
| LlmClient.RetrySpec | remnote-flashcard-generator/src/llm_client.py:140-177 | the whole retry: no attempts raise "All retry attempts failed: None" without a call; otherwise 1..attempts calls, attempts-1 or fewer sleeps of delay·2^j, success exactly when some attempt succeeds (the first one that does), and the final error after all attempts fail |
| LlmClient.RetryOnceThenSucceed | remnote-flashcard-generator/tests/test_basic.py:307-345 | a first failure followed by a success gives the second answer after two calls and one sleep of the base delay |
| LlmClient.RetryWithBackoff | remnote-flashcard-generator/src/llm_client.py:140-177 | the loop computes exactly the retry specification: result, number of calls and the sleeps |
| LlmClient.Classify | remnote-flashcard-generator/src/llm_client.py:258-264 | an exception becomes a rate-limit error exactly when its text holds "rate_limit" in any case, and an LLM error otherwise; the message names the provider and ends with the original text |
| LlmClient.Attempt | remnote-flashcard-generator/src/llm_client.py:235-264 | one attempt returns the answer when the service answers and raises the classified error otherwise |
| LlmClient.AnthropicTokens | remnote-flashcard-generator/src/llm_client.py:373-386 | the Anthropic estimate is the length divided by 3.5, rounded down |
| LlmClient.OpenAiTokens | remnote-flashcard-generator/src/llm_client.py:268-283 | the OpenAI count is the tokenizer's count, or a quarter of the length rounded down when the tokenizer fails |
| LlmClient.RequestFor | remnote-flashcard-generator/src/llm_client.py:228-247 | a request carries the prompt, the model, the given or the configured temperature, and the token budget left after the prompt, which is at least a fifth of the limit when the prompt passed the 80% guard |
| LlmClient.Client.constructor | remnote-flashcard-generator/src/llm_client.py:70-80 | a new client holds its configuration with zero tokens used and zero requests |
| LlmClient.Client.CountTokens | remnote-flashcard-generator/src/llm_client.py:268-283 | each provider counts tokens its own way |
| LlmClient.Client.Generate | remnote-flashcard-generator/src/llm_client.py:217-266 | a prompt over 80% of the token limit raises "Prompt too long: n tokens" before any call and changes no counter; otherwise the outcome, calls and sleeps are the retry specification's, and only a success raises the request count by one and the token count by the reported usage |
| LlmClient.GenerateFailure | remnote-flashcard-generator/tests/test_basic.py:307-345 | when every attempt fails, all attempts are used with one sleep between each, and the error is a rate-limit error exactly when the last failure mentioned a rate limit |
| LlmClient.ProviderOf | remnote-flashcard-generator/src/llm_client.py:423 | the provider name is recognised exactly when it is "openai" or "anthropic" in any case |
| LlmClient.ChosenKey | remnote-flashcard-generator/src/llm_client.py:427-432 | a non-empty key argument wins; otherwise the provider's variable, or nothing |
| LlmClient.ClientConfig | remnote-flashcard-generator/src/llm_client.py:403-449 | an unknown provider raises ValueError with Python's enum message, which shows the lower-cased value through repr; a known one without a key raises the provider's "API key not found" error; otherwise the configuration holds the provider, the chosen key and the given or default model |
| PyStr.ReprPlain | remnote-flashcard-generator/src/llm_client.py:423 | repr shows a value with no quote, backslash or named control character in single quotes, unchanged |
| PyStr.ReprSingleQuote | remnote-flashcard-generator/src/llm_client.py:423 | a value holding a single quote and no double quote is shown in double quotes |
| LlmClient.DefaultSettings | remnote-flashcard-generator/src/llm_client.py:444-448 | without keyword arguments the configuration has temperature 0.3, 2000 tokens, 3 attempts, a 2-second delay and a 30-second timeout |
| LlmClient.ProviderIgnoresCase | remnote-flashcard-generator/src/llm_client.py:423 | the factory ignores the provider's case |
| LlmClient.FactoryKeyAgreesWithConfig | remnote-flashcard-generator/src/llm_client.py:427-435 | without a key argument, the factory succeeds exactly when the configuration module's key lookup finds a non-empty key, and uses that key |
| LlmClient.InvalidProviderRefused | remnote-flashcard-generator/tests/test_basic.py:302-305 | "invalid_provider" is refused with ValueError |
| LlmClient.CreateLlmClient | remnote-flashcard-generator/src/llm_client.py:403-457 | returns a fresh client with zero counters and the factory's configuration, or the factory's error |

## Left out

- File and YAML input/output: `yaml.safe_load`, file-existence checks, `load_config`, `save_config` and the output file writes. The model starts from an already-parsed `Yaml` value.
- `jsonschema` and pydantic machinery: only the checks the source writes out itself are modelled.
- `prompt_loader.py` is not part of this model. Its per-kind settings become the `PromptConfig` record, and prompt text is not rendered. A request records only the kind, the topic name and the temperature, so the content truncation inside the prompts is not modelled.
- `main.py` and `remnote_formatter_backup.py` are not part of this model: the first is command-line orchestration and console output, and the second cannot be imported.
- Logging and console output throughout.
- The MD5 digest is the parameter `Digest`. Its internals are not modelled.
- Floating-point numbers are exact `real`s. Float parsing (`int()`, `float()`) and float printing are function parameters, so rounding is not modelled.
- Python dictionaries are Dafny maps, which have no order. Where order shows in the output, the model keeps it explicitly: parent groups of the hierarchy are written in first-seen order.
- CardGeneration.CardGenerator.GenerateCards: the handler at card_generator.py:219 that wraps an unexpected exception as `LLMError` is not modelled, because every failure the model knows about is already swallowed by the kind that raised it.
- `get_stats` is not a separate member: `CardGeneration.CardGenerator.State()` exposes the statistics as a value, so the copy that `get_stats` returns is not modelled.
- `generate_import_header`, `validate_remnote_format` and `create_sample_output` of the formatters, and their `main()` demos, are not modelled: they are fixed text and console output.
- FixedFormatter.Descend: the recursion of `_add_child_cards` carries a `depth` budget, and running out stands for Python's recursion limit. An actual limit value is not modelled.
- FixedFormatter.Reordered: requires every correct-choice index to be at least minus the number of items. Below that Python raises `IndexError`, which the model does not produce.
- ConfigManager.TypedConfig: refuses a value of the wrong type with an error message. The source's dataclasses accept any value, so the model is stricter there.
- ConfigManager.ApplyEnvOverrides: returns the overridden configuration as a new value instead of updating the dictionary in place.
- CardGeneration.BasicCards: its own contract gives only the size bound. Which cards come out and in what order is stated by BasicCardsFrom, BasicCardsOf, BasicCardsAppend and BasicCardsAll, because one contract holding all of it is too costly to prove.
- CardGeneration.ParseBasic: its own contract gives the empty-separator case and the max_cards cap. Which cards come out is stated by ParseBasicFrom and ParseBasicComplete; the second covers only replies that max_cards does not cut.
- CardGeneration.ParseCloze: its own contract gives the max_cards cap. Which cards come out is stated by ParseClozeFrom and ParseClozeComplete; the second covers only replies that max_cards does not cut.
- PyStr.Repr: escapes the backslash, the chosen quote, `\n`, `\r` and `\t` only. Other non-printable characters, which Python shows as `\x..` or `\u....`, are kept as they are.
- PyStr.Lower: only `A`-`Z` are lowered; Python's case mapping of other letters is not modelled. No other letter lowers to one of the ASCII words the source compares with, so no decision changes; the difference shows only in the invalid-provider error message of LlmClient.ClientConfig.
- ConfigManager.IntMessage: cuts the repr to 200 characters, as `int()`'s message does. CPython first shortens the text itself when it converts it, which is not modelled.
- YamlParser.LoadContent: a failed conversion gives the bare prefix "Failed to parse content structure"; the `: {e}` suffix carrying the exception's text, which would be pydantic's validation report, is not modelled.
- YamlParser.Collect: fails with that same bare prefix, without the exception's text.
- ConfigManager.SetPath: a step into a value that is not a mapping fails with one fixed TypeError text; Python's own message, which depends on the value's type, is not modelled.
- Provider SDK calls are the `api` parameter. `tiktoken` is the `tokenizer` parameter.
- `_handle_rate_limiting` is not modelled: it reads the clock and sleeps. The retry loop's backoff sleeps are returned as a list of delays.
- The import-failure `LLMError` of the two client constructors, `get_model_info` and `test_llm_connection` are not modelled: they are about installed packages and the network.
- LlmClient.Client.Generate: the two provider subclasses are one class with a provider tag. The counters move once the retry loop returns, rather than inside the attempt, and an exception raised while reading `response.choices[0]` after the request was counted is not modelled.
