/**
 * The token escaping both RemNote formatters apply to card text, and the
 * cloze pattern `\{\{[^}]+\}\}` written out as predicates: a span is two
 * opening braces, one or more characters other than `}`, and two closing
 * braces.
 */
module Escaping {
  import opened PyStr

  /** The two formatters escape alike except for how they split `#[[`. */
  datatype Style = Canonical | Fixed

  /** Every entry replaces a non-empty token by a text one character longer. */
  predicate OneLonger(table: seq<(string, string)>) {
    forall k :: 0 <= k < |table| ==> table[k].0 != [] && |table[k].1| == |table[k].0| + 1
  }

  /** The replacement table in dictionary order: each token gets a space inside it. */
  function Table(style: Style): (table: seq<(string, string)>)
    ensures OneLonger(table) && |table| == 7
  {
    [("::", ": :"), (">>", "> >"), ("<<", "< <"), (";;", "; ;"), ("<>", "< >"),
     ("#[[", if style == Canonical then "# [[" else "#[ ["), ("]]", "] ]")]
  }

  /** The passes for entries `m` up to, not including, `n`: one `str.replace` each, over the previous pass's output. */
  function Passes(table: seq<(string, string)>, s: string, m: nat, n: nat): string
    requires OneLonger(table) && m <= n <= |table|
    decreases n - m
  {
    if m == n then s else Passes(table, Replace(s, table[m].0, table[m].1), m + 1, n)
  }

  /** How many occurrences those passes replace, each counted in the text its own pass sees. */
  function Replacements(table: seq<(string, string)>, s: string, m: nat, n: nat): nat
    requires OneLonger(table) && m <= n <= |table|
    decreases n - m
  {
    if m == n then 0
    else Count(s, table[m].0) + Replacements(table, Replace(s, table[m].0, table[m].1), m + 1, n)
  }

  /** Every replacement lengthens the text by exactly one character. */
  lemma {:induction false} PassesLength(table: seq<(string, string)>, s: string, m: nat, n: nat)
    requires OneLonger(table) && m <= n <= |table|
    ensures |Passes(table, s, m, n)| == |s| + Replacements(table, s, m, n)
    decreases n - m
  {
    if m < n {
      var (tok, rep) := table[m];
      ReplaceLength(s, tok, rep);
      assert |rep| - |tok| == 1;
      assert |Replace(s, tok, rep)| == |s| + Count(s, tok);
      PassesLength(table, Replace(s, tok, rep), m + 1, n);
    }
  }

  /** The passes leave the text as it is exactly when they replace nothing. */
  lemma {:induction false} PassesUnchanged(table: seq<(string, string)>, s: string, m: nat, n: nat)
    requires OneLonger(table) && m <= n <= |table|
    ensures Passes(table, s, m, n) == s <==> Replacements(table, s, m, n) == 0
    decreases n - m
  {
    PassesLength(table, s, m, n);
    if m < n && Replacements(table, s, m, n) == 0 {
      CountZeroIffAbsent(s, table[m].0);
      ReplaceAbsent(s, table[m].0, table[m].1);
      PassesUnchanged(table, s, m + 1, n);
    }
  }

  /** None of the tokens of entries `m` up to `n` occurs in `s`. */
  predicate FreeRange(table: seq<(string, string)>, s: string, m: nat, n: nat)
    requires OneLonger(table) && m <= n <= |table|
    decreases n - m
  {
    m == n || (!Contains(s, table[m].0) && FreeRange(table, s, m + 1, n))
  }

  /** A text holding none of the tokens comes through the passes unchanged. */
  lemma {:induction false} PassesTokenFree(table: seq<(string, string)>, s: string, m: nat, n: nat)
    requires OneLonger(table) && m <= n <= |table| && FreeRange(table, s, m, n)
    ensures Passes(table, s, m, n) == s
    decreases n - m
  {
    if m < n {
      ReplaceAbsent(s, table[m].0, table[m].1);
      PassesTokenFree(table, s, m + 1, n);
    }
  }

  /** No token of entries `m` up to `n` shares a character with `u`. */
  predicate ApartRange(table: seq<(string, string)>, u: string, m: nat, n: nat)
    requires m <= n <= |table|
    decreases n - m
  {
    m == n || (Apart(table[m].0, u) && ApartRange(table, u, m + 1, n))
  }

  /** Passes whose tokens share no character with `u` keep every occurrence of `u`. */
  lemma {:induction false} PassesKeep(table: seq<(string, string)>, s: string, u: string, m: nat, n: nat)
    requires OneLonger(table) && m <= n <= |table| && Contains(s, u) && ApartRange(table, u, m, n)
    ensures Contains(Passes(table, s, m, n), u)
    decreases n - m
  {
    if m < n {
      ReplaceKeeps(s, table[m].0, table[m].1, u);
      PassesKeep(table, Replace(s, table[m].0, table[m].1), u, m + 1, n);
    }
  }

  /** Running the passes up to `j` and then the rest is running them all. */
  lemma {:induction false} PassesCompose(table: seq<(string, string)>, s: string, m: nat, j: nat, n: nat)
    requires OneLonger(table) && m <= j <= n <= |table|
    ensures Passes(table, s, m, n) == Passes(table, Passes(table, s, m, j), j, n)
    decreases j - m
  {
    if m < j {
      PassesCompose(table, Replace(s, table[m].0, table[m].1), m + 1, j, n);
    }
  }

  // ---------------------------------------------------------------------
  // The cloze pattern

  /** The pattern matches exactly `s[i..j]`. */
  predicate ClozeSpan(s: string, i: int, j: int) {
    && 0 <= i && i + 5 <= j <= |s|
    && s[i] == '{' && s[i + 1] == '{' && s[j - 2] == '}' && s[j - 1] == '}'
    && forall k :: i + 2 <= k < j - 2 ==> s[k] != '}'
  }

  /**
   * Where a match starting at `i` ends, or -1 when none starts there. The
   * inner part cannot hold `}`, so it runs up to the first `}` after the
   * opening braces, and the match exists when that `}` is doubled.
   */
  function SpanEnd(s: string, i: nat): (e: int)
    requires i <= |s|
    ensures e >= 0 ==> ClozeSpan(s, i, e)
    ensures e < 0 ==> forall j :: !ClozeSpan(s, i, j)
  {
    if i + 2 <= |s| && s[i] == '{' && s[i + 1] == '{' then
      var k := NextSep(s, '}', i + 2);
      NextSepSkips(s, '}', i + 2);
      assert forall m :: i + 2 <= m < k ==> s[m] != '}' by {
        forall m | i + 2 <= m < k ensures s[m] != '}' {
          assert s[m] == s[i + 2..k][m - i - 2];
        }
      }
      if k > i + 2 && k + 2 <= |s| && s[k + 1] == '}' then k + 2 else -1
    else -1
  }

  /** `re.search` from position `i`: the first position where a match starts, or -1. */
  function SearchFrom(s: string, i: nat): (r: int)
    requires i <= |s|
    ensures r == -1 || (i <= r < |s| && SpanEnd(s, r) >= 0)
    decreases |s| - i
  {
    if i == |s| then -1
    else if SpanEnd(s, i) >= 0 then i
    else SearchFrom(s, i + 1)
  }

  /** The pattern occurs somewhere in `s`. */
  predicate HasClozeSpan(s: string) {
    SearchFrom(s, 0) >= 0
  }

  lemma {:induction false} SearchFromFinds(s: string, i: nat)
    requires i <= |s|
    ensures SearchFrom(s, i) >= 0 <==> exists a, b :: i <= a && ClozeSpan(s, a, b)
    decreases |s| - i
  {
    if i < |s| && SpanEnd(s, i) < 0 {
      SearchFromFinds(s, i + 1);
      if exists a, b :: i <= a && ClozeSpan(s, a, b) {
        var a, b :| i <= a && ClozeSpan(s, a, b);
        assert a != i;
      }
    }
  }

  /** `re.search` finds the pattern exactly when some part of the text matches it. */
  lemma HasClozeSpanIff(s: string)
    ensures HasClozeSpan(s) <==> exists i, j :: ClozeSpan(s, i, j)
  {
    SearchFromFinds(s, 0);
  }

  /** `len(re.findall(...))` from position `i`: matches do not overlap, and the scan resumes after each. */
  function MatchesFrom(s: string, i: nat): nat
    requires i <= |s|
    decreases |s| - i
  {
    if i == |s| then 0
    else
      var e := SpanEnd(s, i);
      if e >= 0 then 1 + MatchesFrom(s, e) else MatchesFrom(s, i + 1)
  }

  function ClozeMatchCount(s: string): nat {
    MatchesFrom(s, 0)
  }

  lemma {:induction false} MatchesFromPositive(s: string, i: nat)
    requires i <= |s|
    ensures MatchesFrom(s, i) > 0 <==> SearchFrom(s, i) >= 0
    decreases |s| - i
  {
    if i < |s| && SpanEnd(s, i) < 0 {
      MatchesFromPositive(s, i + 1);
    }
  }

  /** `findall` returns some match exactly when `search` finds one. */
  lemma ClozeMatchCountPositive(s: string)
    ensures ClozeMatchCount(s) > 0 <==> HasClozeSpan(s)
  {
    MatchesFromPositive(s, 0);
  }

  /** A match begins with `{{`, so a text without `{{` has none. */
  lemma NoOpenNoSpan(s: string)
    requires !Contains(s, "{{")
    ensures !HasClozeSpan(s) && ClozeMatchCount(s) == 0
  {
    HasClozeSpanIff(s);
    ClozeMatchCountPositive(s);
    if exists i, j :: ClozeSpan(s, i, j) {
      var i, j :| ClozeSpan(s, i, j);
      assert MatchAt(s, "{{", i);
      FindFirst(s, "{{");
    }
  }

  /** `_validate_cloze_syntax`: as many `{{` as `}}`, and every `{{` opens a match. */
  predicate ValidClozeSyntax(s: string) {
    Count(s, "{{") == Count(s, "}}") && ClozeMatchCount(s) == Count(s, "{{")
  }

  /** Text that passes the check and holds `{{` holds a match of the pattern. */
  lemma ValidClozeHasSpan(s: string)
    requires ValidClozeSyntax(s) && Contains(s, "{{")
    ensures HasClozeSpan(s)
  {
    CountZeroIffAbsent(s, "{{");
    ClozeMatchCountPositive(s);
  }

  /** Text with no braces at all passes the check. */
  lemma BracelessIsValid(s: string)
    requires !Contains(s, "{{") && !Contains(s, "}}")
    ensures ValidClozeSyntax(s)
  {
    CountZeroIffAbsent(s, "{{");
    CountZeroIffAbsent(s, "}}");
    NoOpenNoSpan(s);
  }

  /** A proper deletion passes the check. */
  lemma ValidClozeExample()
    ensures ValidClozeSyntax("{{a}}")
  {
    var s := "{{a}}";
    assert SpanEnd(s, 0) == 5;
    assert MatchesFrom(s, 5) == 0;
    assert s[0] == '{' && s[1] == '{' && s[2] == 'a' && s[3] == '}' && s[4] == '}';
    assert "}}"[0] == '}' && "{{"[0] == '{';
    assert MatchAt(s, "{{", 0) && !MatchAt(s, "{{", 1) && !MatchAt(s, "{{", 2) && !MatchAt(s, "{{", 3);
    assert !MatchAt(s, "}}", 0) && !MatchAt(s, "}}", 1) && !MatchAt(s, "}}", 2) && MatchAt(s, "}}", 3);
  }

  /** An empty deletion does not match the pattern, so it fails the check. */
  lemma EmptyClozeInvalid()
    ensures !ValidClozeSyntax("{{}}")
  {
    assert SpanEnd("{{}}", 0) == -1;
    assert MatchAt("{{}}", "{{", 0);
  }

  // ---------------------------------------------------------------------
  // `_escape_special_chars`

  /** Both brace pairs occur but form no deletion. */
  predicate BracesBroken(e: string) {
    Contains(e, "{{") && Contains(e, "}}") && !HasClozeSpan(e)
  }

  /** The brace step: split every `{{` and `}}` when they form no deletion. */
  function Braces(e: string): string {
    if BracesBroken(e) then Replace(Replace(e, "{{", "{ {"), "}}", "} }") else e
  }

  /** The table's passes, then the brace step. Empty text is returned as it is. */
  function Escape(style: Style, text: string): string {
    if text == [] then text else Braces(Passes(Table(style), text, 0, 7))
  }

  /** One more pass extends the passes before it. */
  lemma PassesStep(table: seq<(string, string)>, s: string, j: nat)
    requires OneLonger(table) && j < |table|
    ensures Passes(table, s, 0, j + 1) == Replace(Passes(table, s, 0, j), table[j].0, table[j].1)
  {
    PassesCompose(table, s, 0, j, j + 1);
  }

  /**
   * `_escape_special_chars` without its statistics: one `str.replace` per
   * table entry, in order, then the brace step when both brace pairs occur
   * and the cloze pattern finds no match.
   */
  method EscapeText(style: Style, text: string) returns (escaped: string)
    ensures escaped == Escape(style, text)
  {
    if text == [] {
      return text;
    }
    var table := Table(style);
    escaped := text;
    for j := 0 to |table|
      invariant escaped == Passes(table, text, 0, j)
    {
      PassesStep(table, text, j);
      escaped := Replace(escaped, table[j].0, table[j].1);
    }
    if Contains(escaped, "{{") && Contains(escaped, "}}") {
      if !HasClozeSpan(escaped) {
        escaped := Replace(Replace(escaped, "{{", "{ {"), "}}", "} }");
      }
    }
  }

  /** How many pairs the brace step splits. */
  function BraceCount(e: string): nat {
    if BracesBroken(e) then Count(e, "{{") + Count(Replace(e, "{{", "{ {"), "}}") else 0
  }

  /** The brace step lengthens the text by one per split pair. */
  lemma BracesLength(e: string)
    ensures |Braces(e)| == |e| + BraceCount(e)
  {
    if BracesBroken(e) {
      ReplaceLength(e, "{{", "{ {");
      ReplaceLength(Replace(e, "{{", "{ {"), "}}", "} }");
    }
  }

  /** How many replacements `Escape` makes, over all its passes. */
  function EscapeCount(style: Style, text: string): nat {
    if text == [] then 0
    else Replacements(Table(style), text, 0, 7) + BraceCount(Passes(Table(style), text, 0, 7))
  }

  /** The escaped text is longer than the input by the number of replacements. */
  lemma EscapeLength(style: Style, text: string)
    ensures |Escape(style, text)| == |text| + EscapeCount(style, text)
  {
    if text != [] {
      PassesLength(Table(style), text, 0, 7);
      BracesLength(Passes(Table(style), text, 0, 7));
    }
  }

  /** Escaping changes the text exactly when it lengthens it, so the length test counts real changes. */
  lemma EscapeChangedIffLonger(style: Style, text: string)
    ensures Escape(style, text) != text <==> |Escape(style, text)| != |text|
    ensures |Escape(style, text)| >= |text|
  {
    EscapeLength(style, text);
    if text != [] && EscapeCount(style, text) == 0 {
      PassesUnchanged(Table(style), text, 0, 7);
      CountZeroIffAbsent(Passes(Table(style), text, 0, 7), "{{");
    }
  }

  /** Text without any token and without both brace pairs comes back unchanged. */
  lemma EscapeTokenFree(style: Style, text: string)
    requires FreeRange(Table(style), text, 0, 7) && !(Contains(text, "{{") && Contains(text, "}}"))
    ensures Escape(style, text) == text
  {
    if text != [] {
      PassesTokenFree(Table(style), text, 0, 7);
    }
  }

  /** A character that begins no token and no brace pair. */
  predicate PlainChar(c: char) {
    c != ':' && c != '>' && c != '<' && c != ';' && c != '#' && c != ']' && c != '{'
  }

  predicate Plain(t: string) {
    forall k :: 0 <= k < |t| ==> PlainChar(t[k])
  }

  lemma PlainChars(t: string)
    requires Plain(t)
    ensures ':' !in t && '>' !in t && '<' !in t && ';' !in t && '#' !in t && ']' !in t && '{' !in t
  {
  }

  /** Plain text comes through escaping unchanged, in both styles. */
  lemma PlainUnchanged(style: Style, t: string)
    requires Plain(t)
    ensures Escape(style, t) == t
  {
    PlainChars(t);
    var table := Table(style);
    AbsentChar(t, "::", 0);
    AbsentChar(t, ">>", 0);
    AbsentChar(t, "<<", 0);
    AbsentChar(t, ";;", 0);
    AbsentChar(t, "<>", 0);
    AbsentChar(t, "#[[", 0);
    AbsentChar(t, "]]", 0);
    AbsentChar(t, "{{", 0);
    assert FreeRange(table, t, 6, 7);
    assert FreeRange(table, t, 5, 7);
    assert FreeRange(table, t, 4, 7);
    assert FreeRange(table, t, 3, 7);
    assert FreeRange(table, t, 2, 7);
    assert FreeRange(table, t, 1, 7);
    EscapeTokenFree(style, t);
  }

  /** The brace step keeps any text that holds no brace. */
  lemma BracesKeep(e: string, u: string)
    requires Contains(e, u) && '{' !in u && '}' !in u
    ensures Contains(Braces(e), u)
  {
    if BracesBroken(e) {
      ReplaceKeeps(e, "{{", "{ {", u);
      ReplaceKeeps(Replace(e, "{{", "{ {"), "}}", "} }", u);
    }
  }

  /**
   * A token that shares no character with the tokens replaced before it,
   * and whose split form shares none with the tokens replaced after it,
   * leaves its split form in the output whenever it occurs in the input.
   */
  lemma EscapeSplits(style: Style, text: string, j: nat)
    requires j < 7 && Contains(text, Table(style)[j].0)
    requires ApartRange(Table(style), Table(style)[j].0, 0, j)
    requires ApartRange(Table(style), Table(style)[j].1, j + 1, 7)
    requires '{' !in Table(style)[j].1 && '}' !in Table(style)[j].1
    ensures Contains(Escape(style, text), Table(style)[j].1)
  {
    var table := Table(style);
    var (tok, rep) := table[j];
    var before := Passes(table, text, 0, j);
    PassesKeep(table, text, tok, 0, j);
    PassesCompose(table, text, 0, j, 7);
    ReplaceCreates(before, tok, rep);
    PassesKeep(table, Replace(before, tok, rep), rep, j + 1, 7);
    ContainsEmpty(text);
    BracesKeep(Passes(table, text, 0, 7), rep);
  }

  lemma ColonsApart(style: Style)
    ensures ApartRange(Table(style), ": :", 1, 7)
  {
    var table := Table(style);
    assert ApartRange(table, ": :", 6, 7);
    assert ApartRange(table, ": :", 5, 7);
    assert ApartRange(table, ": :", 4, 7);
    assert ApartRange(table, ": :", 3, 7);
    assert ApartRange(table, ": :", 2, 7);
  }

  lemma SemicolonsApart(style: Style)
    ensures ApartRange(Table(style), ";;", 0, 3) && ApartRange(Table(style), "; ;", 4, 7)
  {
    var table := Table(style);
    assert ApartRange(table, ";;", 2, 3);
    assert ApartRange(table, ";;", 1, 3);
    assert ApartRange(table, "; ;", 6, 7);
    assert ApartRange(table, "; ;", 5, 7);
  }

  lemma OpenerApart(style: Style)
    ensures ApartRange(Table(style), "#[[", 0, 5) && ApartRange(Table(style), Table(style)[5].1, 6, 7)
  {
    var table := Table(style);
    assert ApartRange(table, "#[[", 4, 5);
    assert ApartRange(table, "#[[", 3, 5);
    assert ApartRange(table, "#[[", 2, 5);
    assert ApartRange(table, "#[[", 1, 5);
  }

  lemma CloserApart(style: Style)
    ensures ApartRange(Table(style), "]]", 0, 6)
  {
    var table := Table(style);
    assert ApartRange(table, "]]", 5, 6);
    assert ApartRange(table, "]]", 4, 6);
    assert ApartRange(table, "]]", 3, 6);
    assert ApartRange(table, "]]", 2, 6);
    assert ApartRange(table, "]]", 1, 6);
  }

  /** `::`, `;;`, `#[[` and `]]` in the input always leave `: :`, `; ;`, the split opener and `] ]` in the output. */
  lemma EscapeSplitsDisjointTokens(style: Style, text: string)
    ensures Contains(text, "::") ==> Contains(Escape(style, text), ": :")
    ensures Contains(text, ";;") ==> Contains(Escape(style, text), "; ;")
    ensures Contains(text, "#[[") ==> Contains(Escape(style, text), Table(style)[5].1)
    ensures Contains(text, "]]") ==> Contains(Escape(style, text), "] ]")
  {
    if Contains(text, "::") {
      ColonsApart(style);
      EscapeSplits(style, text, 0);
    }
    if Contains(text, ";;") {
      SemicolonsApart(style);
      EscapeSplits(style, text, 3);
    }
    if Contains(text, "#[[") {
      OpenerApart(style);
      EscapeSplits(style, text, 5);
    }
    if Contains(text, "]]") {
      CloserApart(style);
      EscapeSplits(style, text, 6);
    }
  }

  /**
   * `>>` in a text without `<` leaves `> >` in the output: the only later
   * token that could overlap it, `<>`, cannot occur.
   */
  lemma EscapeSplitsArrow(style: Style, text: string)
    requires Contains(text, ">>") && '<' !in text
    ensures Contains(Escape(style, text), "> >")
  {
    var table := Table(style);
    ArrowAfterFivePasses(style, text);
    PassesCompose(table, text, 0, 5, 7);
    PassesKeep(table, Passes(table, text, 0, 5), "> >", 5, 7);
    ContainsEmpty(text);
    BracesKeep(Passes(table, text, 0, 7), "> >");
  }

  /** The first two passes of either table turn `>>` into `> >` and bring no `<` in. */
  lemma ArrowAfterTwoPasses(text: string)
    requires Contains(text, ">>") && '<' !in text
    ensures Contains(Replace(Replace(text, "::", ": :"), ">>", "> >"), "> >")
    ensures '<' !in Replace(Replace(text, "::", ": :"), ">>", "> >")
  {
    var s1 := Replace(text, "::", ": :");
    ReplaceKeeps(text, "::", ": :", ">>");
    ReplaceNoNewChar(text, "::", ": :", '<');
    ReplaceCreates(s1, ">>", "> >");
    ReplaceNoNewChar(s1, ">>", "> >", '<');
  }

  /** After the first five passes, the `> >` of the second one is still there. */
  lemma ArrowAfterFivePasses(style: Style, text: string)
    requires Contains(text, ">>") && '<' !in text
    ensures Contains(Passes(Table(style), text, 0, 5), "> >")
  {
    ArrowAfterTwoPasses(text);
    var s2 := Replace(Replace(text, "::", ": :"), ">>", "> >");
    AbsentChar(s2, "<<", 0);
    ReplaceAbsent(s2, "<<", "< <");
    var s4 := Replace(s2, ";;", "; ;");
    ReplaceKeeps(s2, ";;", "; ;", "> >");
    ReplaceNoNewChar(s2, ";;", "; ;", '<');
    AbsentChar(s4, "<>", 0);
    ReplaceAbsent(s4, "<>", "< >");
    assert Passes(Table(style), text, 0, 5) == s4;
  }

  /** The sentence the formatter's own checks escape holds `: :` and `> >` afterwards. */
  lemma EscapeTestSentence(t: string)
    requires t == "Text with :: and >> chars"
    ensures Contains(Escape(Canonical, t), ": :") && Contains(Escape(Canonical, t), "> >")
  {
    assert MatchAt(t, "::", 10);
    assert MatchAt(t, ">>", 17);
    ContainsIffMatch(t, "::");
    ContainsIffMatch(t, ">>");
    EscapeSplitsDisjointTokens(Canonical, t);
    EscapeSplitsArrow(Canonical, t);
  }

  /** Text that survives the passes after the first and the brace step, once the first pass has produced it, is in the output. */
  lemma EscapeKeepsAfterColons(style: Style, text: string, u: string)
    requires text != [] && Contains(Replace(text, "::", ": :"), u)
    requires ApartRange(Table(style), u, 1, 7) && '{' !in u && '}' !in u
    ensures Contains(Escape(style, text), u)
  {
    var table := Table(style);
    assert Passes(table, text, 0, 7) == Passes(table, Replace(text, "::", ": :"), 1, 7);
    PassesKeep(table, Replace(text, "::", ": :"), u, 1, 7);
    BracesKeep(Passes(table, text, 0, 7), u);
  }

  lemma ColonApart(style: Style)
    ensures ApartRange(Table(style), "::", 1, 7)
  {
    var table := Table(style);
    assert ApartRange(table, "::", 6, 7);
    assert ApartRange(table, "::", 5, 7);
    assert ApartRange(table, "::", 4, 7);
    assert ApartRange(table, "::", 3, 7);
    assert ApartRange(table, "::", 2, 7);
  }

  lemma TripleColon()
    ensures Replace(":::", "::", ": :") == ": ::"
    ensures MatchAt(": ::", "::", 2) && MatchAt(":::", "::", 0)
  {
  }

  /**
   * Escaping is not complete: `:::` escapes to a text that still holds
   * `::`, because the pass resumes after the occurrence it replaced.
   */
  lemma EscapeIncomplete(style: Style)
    ensures Contains(":::", "::") && Contains(Escape(style, ":::"), "::")
  {
    TripleColon();
    ContainsIffMatch(":::", "::");
    ContainsIffMatch(": ::", "::");
    ColonApart(style);
    EscapeKeepsAfterColons(style, ":::", "::");
  }

  /** A text holding none of the seven tokens comes through the table's passes unchanged. */
  lemma TableFree(style: Style, s: string)
    requires !Contains(s, "::") && !Contains(s, ">>") && !Contains(s, "<<") && !Contains(s, ";;")
    requires !Contains(s, "<>") && !Contains(s, "#[[") && !Contains(s, "]]")
    ensures Passes(Table(style), s, 0, 7) == s
  {
    var table := Table(style);
    assert FreeRange(table, s, 6, 7);
    assert FreeRange(table, s, 5, 7);
    assert FreeRange(table, s, 4, 7);
    assert FreeRange(table, s, 3, 7);
    assert FreeRange(table, s, 2, 7);
    assert FreeRange(table, s, 1, 7);
    PassesTokenFree(table, s, 0, 7);
  }

  /** Text without tokens whose braces form no deletion has every `{{` and `}}` split. */
  lemma EscapeBrokenBraces(style: Style, text: string)
    requires text != [] && !Contains(text, "::") && !Contains(text, ">>") && !Contains(text, "<<")
    requires !Contains(text, ";;") && !Contains(text, "<>") && !Contains(text, "#[[") && !Contains(text, "]]")
    requires BracesBroken(text)
    ensures Escape(style, text) == Replace(Replace(text, "{{", "{ {"), "}}", "} }")
  {
    TableFree(style, text);
  }

  /** The empty deletion `{{}}` holds both brace pairs and no match of the pattern. */
  lemma EmptyClozeBroken()
    ensures BracesBroken("{{}}")
  {
    assert SpanEnd("{{}}", 0) == -1;
    assert MatchAt("{{}}", "{{", 0) && MatchAt("{{}}", "}}", 2);
    ContainsIffMatch("{{}}", "{{");
    ContainsIffMatch("{{}}", "}}");
  }

  /** How many of the texts escaping changes: the statistic counts calls, not replacements. */
  function ChangedCount(style: Style, texts: seq<string>): nat {
    if texts == [] then 0
    else ChangedCount(style, texts[..|texts| - 1]) + (if Escape(style, texts[|texts| - 1]) != texts[|texts| - 1] then 1 else 0)
  }

  /** The escape statistic grows by at most one per text handed to the escaper. */
  lemma {:induction false} ChangedCountBound(style: Style, texts: seq<string>)
    ensures ChangedCount(style, texts) <= |texts|
    ensures (forall k :: 0 <= k < |texts| ==> Plain(texts[k])) ==> ChangedCount(style, texts) == 0
  {
    if texts != [] {
      ChangedCountBound(style, texts[..|texts| - 1]);
      if forall k :: 0 <= k < |texts| ==> Plain(texts[k]) {
        PlainUnchanged(style, texts[|texts| - 1]);
      }
    }
  }

  lemma {:induction false} ChangedCountAppend(style: Style, a: seq<string>, b: seq<string>)
    ensures ChangedCount(style, a + b) == ChangedCount(style, a) + ChangedCount(style, b)
    decreases |b|
  {
    if b != [] {
      var pre := b[..|b| - 1];
      ChangedCountAppend(style, a, pre);
      assert (a + b)[..|a + b| - 1] == a + pre && (a + b)[|a + b| - 1] == b[|b| - 1];
    } else {
      assert a + b == a;
    }
  }
}
