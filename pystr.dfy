/**
 * The parts of Python's `str` behaviour that the flashcard generator relies on:
 * `strip`, `in`, `count`, `replace`, `find`, `split`, `join`, ASCII `lower`
 * and slicing with a possibly negative bound.
 *
 * The scanning functions walk a position through the string rather than
 * slicing it, the way CPython's own loops do.
 */
module PyStr {

  /** `str.isspace()` for a single code point. */
  predicate IsSpace(c: char) {
    var n := c as int;
    (9 <= n <= 13) || (28 <= n <= 32) || n == 0x85 || n == 0xA0 || n == 0x1680
    || (0x2000 <= n <= 0x200A) || n == 0x2028 || n == 0x2029 || n == 0x202F
    || n == 0x205F || n == 0x3000
  }

  /** True when every character of `s` is whitespace (also for ""). */
  predicate Blank(s: string) {
    forall i :: 0 <= i < |s| ==> IsSpace(s[i])
  }

  // ---------------------------------------------------------------------
  // strip

  /** The first position at or after `i` that does not hold whitespace (or `|s|`). */
  function LeadEnd(s: string, i: nat): (n: nat)
    requires i <= |s|
    ensures i <= n <= |s|
    ensures n < |s| ==> !IsSpace(s[n])
    decreases |s| - i
  {
    if i < |s| && IsSpace(s[i]) then LeadEnd(s, i + 1) else i
  }

  /** Everything `LeadEnd` skips is whitespace. */
  lemma {:induction false} LeadEndSkipsSpace(s: string, i: nat)
    requires i <= |s|
    ensures forall k :: i <= k < LeadEnd(s, i) ==> IsSpace(s[k])
    decreases |s| - i
  {
    if i < |s| && IsSpace(s[i]) {
      LeadEndSkipsSpace(s, i + 1);
    }
  }

  /** The end of `s[lo..j]` once trailing whitespace is dropped. */
  function TrailStart(s: string, lo: nat, j: nat): (n: nat)
    requires lo <= j <= |s|
    ensures lo <= n <= j
    ensures n > lo ==> !IsSpace(s[n - 1])
    decreases j
  {
    if j > lo && IsSpace(s[j - 1]) then TrailStart(s, lo, j - 1) else j
  }

  /** Everything `TrailStart` drops is whitespace. */
  lemma {:induction false} TrailStartSkipsSpace(s: string, lo: nat, j: nat)
    requires lo <= j <= |s|
    ensures forall k :: TrailStart(s, lo, j) <= k < j ==> IsSpace(s[k])
    decreases j
  {
    if j > lo && IsSpace(s[j - 1]) {
      TrailStartSkipsSpace(s, lo, j - 1);
    }
  }

  /** Neither starts nor ends with whitespace. */
  predicate Stripped(s: string) {
    s != [] ==> !IsSpace(s[0]) && !IsSpace(s[|s| - 1])
  }

  /** `str.strip()` with no argument. */
  function Strip(s: string): (r: string)
    ensures Stripped(r)
    ensures |r| <= |s|
  {
    var i := LeadEnd(s, 0);
    s[i..TrailStart(s, i, |s|)]
  }

  /** `strip` keeps a stretch of `s` and removes only whitespace around it. */
  lemma StripRemovesBlank(s: string)
    ensures var i := LeadEnd(s, 0);
      && i + |Strip(s)| <= |s| && Strip(s) == s[i..i + |Strip(s)|]
      && Blank(s[..i]) && Blank(s[i + |Strip(s)|..])
  {
    var i := LeadEnd(s, 0);
    LeadEndSkipsSpace(s, 0);
    TrailStartSkipsSpace(s, i, |s|);
  }

  /** `strip()` leaves nothing exactly when the text is all whitespace. */
  lemma StripEmptyIffBlank(s: string)
    ensures Strip(s) == [] <==> Blank(s)
  {
    var i := LeadEnd(s, 0);
    LeadEndSkipsSpace(s, 0);
    TrailStartSkipsSpace(s, i, |s|);
  }

  // ---------------------------------------------------------------------
  // find, in, split(sep, 1)

  /** `t` occurs in `s` starting at position `i`. */
  predicate MatchAt(s: string, t: string, i: int) {
    0 <= i && i + |t| <= |s| && forall k :: 0 <= k < |t| ==> s[i + k] == t[k]
  }

  /** `s.find(t, i)`: the lowest position at or after `i` where `t` occurs, or -1. */
  function FindFrom(s: string, t: string, i: nat): (r: int)
    requires i <= |s|
    ensures r == -1 || (i <= r && MatchAt(s, t, r))
    decreases |s| - i
  {
    if i + |t| > |s| then -1
    else if MatchAt(s, t, i) then i
    else FindFrom(s, t, i + 1)
  }

  /** `FindFrom` skips no occurrence. */
  lemma {:induction false} FindFromFirst(s: string, t: string, i: nat)
    requires i <= |s|
    ensures forall j :: i <= j && (FindFrom(s, t, i) == -1 || j < FindFrom(s, t, i)) ==> !MatchAt(s, t, j)
    decreases |s| - i
  {
    if i + |t| <= |s| && !MatchAt(s, t, i) {
      FindFromFirst(s, t, i + 1);
    }
  }

  /** `str.find`. */
  function Find(s: string, t: string): (r: int)
    ensures r == -1 || (0 <= r <= |s| - |t| && MatchAt(s, t, r))
  {
    FindFrom(s, t, 0)
  }

  /** Python's `t in s` for strings. */
  predicate Contains(s: string, t: string) {
    Find(s, t) >= 0
  }

  /** `find` reports the first occurrence, and -1 only when there is none. */
  lemma FindFirst(s: string, t: string)
    ensures forall j :: 0 <= j && (Find(s, t) == -1 || j < Find(s, t)) ==> !MatchAt(s, t, j)
  {
    FindFromFirst(s, t, 0);
  }

  /** `t in s` holds exactly when `t` occurs at some position of `s`. */
  lemma ContainsIffMatch(s: string, t: string)
    ensures Contains(s, t) <==> exists i :: MatchAt(s, t, i)
  {
    FindFirst(s, t);
  }

  /** The empty string occurs in every string. */
  lemma ContainsEmpty(s: string)
    ensures Contains(s, "")
  {
  }

  /**
   * `s.split(sep, 1)` when `sep` occurs in `s`: the text before the first
   * occurrence and the text after it.
   */
  function SplitOnce(s: string, sep: string): (r: (string, string))
    requires Contains(s, sep)
    ensures |r.0| == Find(s, sep)
  {
    var i := Find(s, sep);
    (s[..i], s[i + |sep|..])
  }

  /** The two parts with the separator between them give the input back, split at its first occurrence. */
  lemma SplitOnceJoins(s: string, sep: string)
    requires Contains(s, sep)
    ensures s == SplitOnce(s, sep).0 + sep + SplitOnce(s, sep).1
    ensures forall j :: 0 <= j < |SplitOnce(s, sep).0| ==> !MatchAt(s, sep, j)
  {
    var i := Find(s, sep);
    assert s[i..i + |sep|] == sep;
    assert s == s[..i] + s[i..i + |sep|] + s[i + |sep|..];
    FindFirst(s, sep);
  }

  /** No occurrence of `sep` ends before the one `split(sep, 1)` cuts at. */
  lemma SplitOnceAtFirst(s: string, sep: string)
    requires sep != [] && Contains(s, sep)
    ensures !Contains(SplitOnce(s, sep).0 + sep[..|sep| - 1], sep)
  {
    var f := SplitOnce(s, sep).0;
    var g := f + sep[..|sep| - 1];
    SplitOnceJoins(s, sep);
    if Contains(g, sep) {
      var j := Find(g, sep);
      assert MatchAt(s, sep, j) by {
        forall k | 0 <= k < |sep| ensures s[j + k] == sep[k] {
          assert g[j + k] == s[j + k];
        }
      }
    }
  }

  // ---------------------------------------------------------------------
  // count, replace

  /** `s.count(t, i)` for a non-empty needle: non-overlapping, left to right. */
  function CountFrom(s: string, t: string, i: nat): nat
    requires t != [] && i <= |s|
    decreases |s| - i
  {
    if i + |t| > |s| then 0
    else if MatchAt(s, t, i) then 1 + CountFrom(s, t, i + |t|)
    else CountFrom(s, t, i + 1)
  }

  /** `str.count` for a non-empty needle. */
  function Count(s: string, t: string): nat
    requires t != []
  {
    CountFrom(s, t, 0)
  }

  /** `s[i:].replace(pat, rep)`: one left-to-right pass, non-overlapping. */
  function ReplaceFrom(s: string, pat: string, rep: string, i: nat): string
    requires pat != [] && i <= |s|
    decreases |s| - i
  {
    if i + |pat| > |s| then s[i..]
    else if MatchAt(s, pat, i) then rep + ReplaceFrom(s, pat, rep, i + |pat|)
    else [s[i]] + ReplaceFrom(s, pat, rep, i + 1)
  }

  /** `str.replace(pat, rep)` for a non-empty pattern. */
  function Replace(s: string, pat: string, rep: string): string
    requires pat != []
  {
    ReplaceFrom(s, pat, rep, 0)
  }

  lemma {:induction false} CountFromZeroIffAbsent(s: string, t: string, i: nat)
    requires t != [] && i <= |s|
    ensures CountFrom(s, t, i) == 0 <==> FindFrom(s, t, i) == -1
    decreases |s| - i
  {
    if i + |t| <= |s| && !MatchAt(s, t, i) {
      CountFromZeroIffAbsent(s, t, i + 1);
    }
  }

  /** `count` is zero exactly when the needle does not occur. */
  lemma CountZeroIffAbsent(s: string, t: string)
    requires t != []
    ensures Count(s, t) == 0 <==> !Contains(s, t)
  {
    CountFromZeroIffAbsent(s, t, 0);
  }

  /** `n * d` as repeated addition, so that length arguments stay linear. */
  function Scaled(n: nat, d: int): int {
    if n == 0 then 0 else Scaled(n - 1, d) + d
  }

  lemma {:induction false} ScaledIsProduct(n: nat, d: int)
    ensures Scaled(n, d) == n * d
  {
    if n > 0 {
      ScaledIsProduct(n - 1, d);
      assert n * d == (n - 1) * d + d;
    }
  }

  lemma {:induction false} ReplaceFromLength(s: string, pat: string, rep: string, i: nat)
    requires pat != [] && i <= |s|
    ensures |ReplaceFrom(s, pat, rep, i)| == |s| - i + Scaled(CountFrom(s, pat, i), |rep| - |pat|)
    decreases |s| - i
  {
    if i + |pat| > |s| {
    } else if MatchAt(s, pat, i) {
      ReplaceFromLength(s, pat, rep, i + |pat|);
    } else {
      ReplaceFromLength(s, pat, rep, i + 1);
    }
  }

  /** Each replaced occurrence changes the length by `|rep| - |pat|`. */
  lemma ReplaceLength(s: string, pat: string, rep: string)
    requires pat != []
    ensures |Replace(s, pat, rep)| == |s| + Count(s, pat) * (|rep| - |pat|)
  {
    ReplaceFromLength(s, pat, rep, 0);
    ScaledIsProduct(Count(s, pat), |rep| - |pat|);
  }

  lemma {:induction false} ReplaceFromAbsent(s: string, pat: string, rep: string, i: nat)
    requires pat != [] && i <= |s| && FindFrom(s, pat, i) == -1
    ensures ReplaceFrom(s, pat, rep, i) == s[i..]
    decreases |s| - i
  {
    if i + |pat| <= |s| {
      ReplaceFromAbsent(s, pat, rep, i + 1);
      assert s[i..] == [s[i]] + s[i + 1..];
    }
  }

  /** Replacing a needle that does not occur is the identity. */
  lemma ReplaceAbsent(s: string, pat: string, rep: string)
    requires pat != [] && !Contains(s, pat)
    ensures Replace(s, pat, rep) == s
  {
    ReplaceFromAbsent(s, pat, rep, 0);
  }

  /** No character of `pat` occurs in `u`, so no occurrence of `pat` can overlap one of `u`. */
  predicate Apart(pat: string, u: string) {
    forall k :: 0 <= k < |pat| ==> pat[k] !in u
  }

  lemma {:induction false} ReplaceFromKeepsTail(s: string, pat: string, rep: string, u: string, p: nat, i: nat)
    requires pat != [] && Apart(pat, u) && MatchAt(s, u, p) && p <= i <= p + |u|
    ensures s[i..p + |u|] <= ReplaceFrom(s, pat, rep, i)
    decreases |s| - i
  {
    if i < p + |u| && i + |pat| <= |s| {
      assert s[i] == u[i - p];
      assert s[i] != pat[0];
      ReplaceFromKeepsTail(s, pat, rep, u, p, i + 1);
    }
  }

  lemma {:induction false} ReplaceFromKeeps(s: string, pat: string, rep: string, u: string, p: nat, i: nat)
    requires pat != [] && Apart(pat, u) && MatchAt(s, u, p) && i <= p
    ensures exists q :: MatchAt(ReplaceFrom(s, pat, rep, i), u, q)
    decreases |s| - i
  {
    var r := ReplaceFrom(s, pat, rep, i);
    if u == [] {
      assert MatchAt(r, u, 0);
    } else if i == p {
      ReplaceFromKeepsTail(s, pat, rep, u, p, p);
      assert MatchAt(r, u, 0);
    } else if i + |pat| > |s| {
      assert MatchAt(r, u, p - i);
    } else if MatchAt(s, pat, i) {
      MatchCovers(s, pat, i, p);
      assert s[p] == u[0] && u[0] in u;
      ReplaceFromKeeps(s, pat, rep, u, p, i + |pat|);
      ShiftMatch(rep, ReplaceFrom(s, pat, rep, i + |pat|), u);
    } else {
      ReplaceFromKeeps(s, pat, rep, u, p, i + 1);
      ShiftMatch([s[i]], ReplaceFrom(s, pat, rep, i + 1), u);
    }
  }

  lemma MatchCovers(s: string, t: string, i: nat, p: nat)
    requires MatchAt(s, t, i) && i <= p
    ensures p < i + |t| ==> t[p - i] == s[p]
  {
  }

  lemma ShiftMatch(a: string, b: string, u: string)
    requires exists q :: MatchAt(b, u, q)
    ensures exists q :: MatchAt(a + b, u, q)
  {
    var q :| MatchAt(b, u, q);
    assert MatchAt(a + b, u, q + |a|);
  }

  /** Replacing a pattern that shares no character with `u` keeps every occurrence of `u`. */
  lemma ReplaceKeeps(s: string, pat: string, rep: string, u: string)
    requires pat != [] && Apart(pat, u) && Contains(s, u)
    ensures Contains(Replace(s, pat, rep), u)
  {
    ContainsIffMatch(s, u);
    var p :| MatchAt(s, u, p);
    ReplaceFromKeeps(s, pat, rep, u, p, 0);
    ContainsIffMatch(Replace(s, pat, rep), u);
  }

  lemma {:induction false} ReplaceFromUpTo(s: string, pat: string, rep: string, i: nat, f: nat)
    requires pat != [] && i <= f && MatchAt(s, pat, f)
    requires forall j :: i <= j < f ==> !MatchAt(s, pat, j)
    ensures ReplaceFrom(s, pat, rep, i) == s[i..f] + rep + ReplaceFrom(s, pat, rep, f + |pat|)
    decreases f - i
  {
    if i < f {
      ReplaceFromUpTo(s, pat, rep, i + 1, f);
      assert s[i..f] == [s[i]] + s[i + 1..f];
    }
  }

  /** Replacing a pattern that occurs leaves its replacement in the text. */
  lemma ReplaceCreates(s: string, pat: string, rep: string)
    requires pat != [] && Contains(s, pat)
    ensures Contains(Replace(s, pat, rep), rep)
  {
    var f := Find(s, pat);
    FindFirst(s, pat);
    ReplaceFromUpTo(s, pat, rep, 0, f);
    assert MatchAt(Replace(s, pat, rep), rep, f);
    ContainsIffMatch(Replace(s, pat, rep), rep);
  }

  lemma {:induction false} ReplaceFromNoNewChar(s: string, pat: string, rep: string, c: char, i: nat)
    requires pat != [] && i <= |s| && c !in s && c !in rep
    ensures c !in ReplaceFrom(s, pat, rep, i)
    decreases |s| - i
  {
    if i + |pat| > |s| {
      assert forall k :: i <= k < |s| ==> s[k] != c;
    } else if MatchAt(s, pat, i) {
      ReplaceFromNoNewChar(s, pat, rep, c, i + |pat|);
      assert ReplaceFrom(s, pat, rep, i) == rep + ReplaceFrom(s, pat, rep, i + |pat|);
    } else {
      ReplaceFromNoNewChar(s, pat, rep, c, i + 1);
      assert ReplaceFrom(s, pat, rep, i) == [s[i]] + ReplaceFrom(s, pat, rep, i + 1);
    }
  }

  /** A character in neither the text nor the replacement is not in the result. */
  lemma ReplaceNoNewChar(s: string, pat: string, rep: string, c: char)
    requires pat != [] && c !in s && c !in rep
    ensures c !in Replace(s, pat, rep)
  {
    ReplaceFromNoNewChar(s, pat, rep, c, 0);
  }

  /** A pattern holding a character the text lacks does not occur in it. */
  lemma AbsentChar(s: string, t: string, k: nat)
    requires k < |t| && t[k] !in s
    ensures !Contains(s, t)
  {
    forall i ensures !MatchAt(s, t, i) {
      if 0 <= i && i + |t| <= |s| {
        assert s[i + k] in s;
      }
    }
    ContainsIffMatch(s, t);
  }

  // ---------------------------------------------------------------------
  // split(c), join

  /** The first position at or after `i` holding `c` (or `|s|`). */
  function NextSep(s: string, c: char, i: nat): (n: nat)
    requires i <= |s|
    ensures i <= n <= |s|
    ensures n < |s| ==> s[n] == c
    decreases |s| - i
  {
    if i == |s| || s[i] == c then i else NextSep(s, c, i + 1)
  }

  lemma {:induction false} NextSepSkips(s: string, c: char, i: nat)
    requires i <= |s|
    ensures c !in s[i..NextSep(s, c, i)]
    decreases |s| - i
  {
    if i < |s| && s[i] != c {
      NextSepSkips(s, c, i + 1);
      assert s[i..NextSep(s, c, i)] == [s[i]] + s[i + 1..NextSep(s, c, i)];
    }
  }

  /** `s[i:].split(c)`. */
  function SplitFrom(s: string, c: char, i: nat): (parts: seq<string>)
    requires i <= |s|
    ensures |parts| >= 1
    decreases |s| - i
  {
    var n := NextSep(s, c, i);
    if n == |s| then [s[i..]] else [s[i..n]] + SplitFrom(s, c, n + 1)
  }

  /** `s.split(c)` for a single-character separator. */
  function SplitOn(s: string, c: char): (parts: seq<string>)
    ensures |parts| >= 1
  {
    SplitFrom(s, c, 0)
  }

  /** `sep.join(parts)`. */
  function Join(parts: seq<string>, sep: string): string
  {
    if parts == [] then ""
    else if |parts| == 1 then parts[0]
    else parts[0] + sep + Join(parts[1..], sep)
  }

  lemma {:induction false} SplitFromParts(s: string, c: char, i: nat)
    requires i <= |s|
    ensures forall k :: 0 <= k < |SplitFrom(s, c, i)| ==> c !in SplitFrom(s, c, i)[k]
    ensures Join(SplitFrom(s, c, i), [c]) == s[i..]
    decreases |s| - i
  {
    var n := NextSep(s, c, i);
    NextSepSkips(s, c, i);
    if n < |s| {
      SplitFromParts(s, c, n + 1);
      var rest := SplitFrom(s, c, n + 1);
      assert SplitFrom(s, c, i)[1..] == rest;
      assert s[i..] == s[i..n] + [c] + s[n + 1..];
    }
  }

  /** The parts of `split(c)` hold no `c`, and joining them with `c` gives the input back. */
  lemma SplitOnParts(s: string, c: char)
    ensures forall k :: 0 <= k < |SplitOn(s, c)| ==> c !in SplitOn(s, c)[k]
    ensures Join(SplitOn(s, c), [c]) == s
  {
    SplitFromParts(s, c, 0);
  }

  lemma {:induction false} NextSepAbsent(s: string, c: char, i: nat)
    requires c !in s && i <= |s|
    ensures NextSep(s, c, i) == |s|
    decreases |s| - i
  {
    if i < |s| {
      NextSepAbsent(s, c, i + 1);
    }
  }

  /** Text without the separator splits into itself alone. */
  lemma SplitOnWhole(s: string, c: char)
    requires c !in s
    ensures SplitOn(s, c) == [s]
  {
    NextSepAbsent(s, c, 0);
  }

  /**
   * `str.lower()` on the ASCII letters only. Comparisons with the ASCII words the
   * source looks for come out as in Python; other letters keep their case.
   */
  function LowerChar(ch: char): char {
    if 'A' <= ch <= 'Z' then (ch as int + 32) as char else ch
  }

  function Lower(s: string): (r: string)
    ensures |r| == |s|
    ensures forall i :: 0 <= i < |s| ==> r[i] == LowerChar(s[i])
  {
    seq(|s|, i requires 0 <= i < |s| => LowerChar(s[i]))
  }

  /** Lower-casing twice is lower-casing once. */
  lemma LowerTwice(s: string)
    ensures Lower(Lower(s)) == Lower(s)
  {
  }

  /** `str(n)` for an integer: its decimal digits, after a minus sign when negative. */
  function IntText(n: int): (r: string)
    ensures r != []
    ensures n >= 0 ==> forall k :: 0 <= k < |r| ==> '0' <= r[k] <= '9'
    decreases if n < 0 then 1 - n else n
  {
    if n < 0 then "-" + IntText(-n)
    else if n < 10 then [('0' as int + n) as char]
    else IntText(n / 10) + [('0' as int + n % 10) as char]
  }

  /** Python's `xs[:k]` for any integer `k`. */
  function Take<T>(xs: seq<T>, k: int): (r: seq<T>)
    ensures r == xs[..if k >= |xs| then |xs| else if k >= 0 then k else if |xs| + k > 0 then |xs| + k else 0]
  {
    if k >= |xs| then xs
    else if k >= 0 then xs[..k]
    else if |xs| + k > 0 then xs[..|xs| + k]
    else []
  }

  // ---------------------------------------------------------------------
  // repr

  /** The quote `repr` puts around a string: double only when it holds a single quote and no double quote. */
  function ReprQuote(s: string): char {
    if '\'' in s && '"' !in s then '"' else '\''
  }

  /** A character as `repr` writes it between quotes `q`. */
  function ReprChar(ch: char, q: char): (r: string)
    ensures |r| >= 1
  {
    if ch == '\\' then "\\\\"
    else if ch == q then ['\\', q]
    else if ch == '\n' then "\\n"
    else if ch == '\r' then "\\r"
    else if ch == '\t' then "\\t"
    else [ch]
  }

  /** A character `repr` writes as itself between quotes `q`. */
  predicate ReprPlainChar(ch: char, q: char) {
    ch != '\\' && ch != q && ch != '\n' && ch != '\r' && ch != '\t'
  }

  function ReprBody(s: string, q: char): (r: string)
    ensures |r| >= |s|
  {
    if s == [] then [] else ReprChar(s[0], q) + ReprBody(s[1..], q)
  }

  /** `repr` of a string, for the characters it escapes by name. */
  function Repr(s: string): (r: string)
    ensures |r| >= |s| + 2
    ensures r[0] == r[|r| - 1] == ReprQuote(s)
  {
    [ReprQuote(s)] + ReprBody(s, ReprQuote(s)) + [ReprQuote(s)]
  }

  /** Between the quotes, characters that need no escape are written as they are. */
  lemma {:induction false} ReprBodyPlain(s: string, q: char)
    requires forall i :: 0 <= i < |s| ==> ReprPlainChar(s[i], q)
    ensures ReprBody(s, q) == s
  {
    if s != [] {
      ReprBodyPlain(s[1..], q);
      assert s == [s[0]] + s[1..];
    }
  }

  /** A string with no quote, backslash or named control character is shown in single quotes, unchanged. */
  lemma ReprPlain(s: string)
    requires forall i :: 0 <= i < |s| ==> ReprPlainChar(s[i], '\'') && s[i] != '"'
    ensures Repr(s) == "'" + s + "'"
  {
    ReprBodyPlain(s, '\'');
  }

  /** A single quote switches `repr` to double quotes and is then not escaped. */
  lemma ReprSingleQuote()
    ensures Repr("o'x") == "\"o'x\""
  {
    assert ReprQuote("o'x") == '"';
    assert ReprBody("o'x", '"') == "o'x" by {
      ReprBodyPlain("o'x", '"');
    }
  }

  // ---------------------------------------------------------------------
  // Sequence helpers

  lemma AppendEmpty<T>(a: seq<T>)
    ensures a + [] == a && [] + a == a
  {
  }

  lemma AppendAssoc<T>(a: seq<T>, b: seq<T>, c: seq<T>)
    ensures (a + b) + c == a + (b + c)
  {
  }
}
