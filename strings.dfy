/**
 * The JavaScript string operations the extension relies on, for strings as
 * sequences of characters: the `\s` class, `trim`, `replace(/\s+/g, ' ')`,
 * `substring`, ASCII case mapping, `includes`, `indexOf`, `split(c).pop()`,
 * `join` and the `\b...\b` keyword tests.
 */
module Strings {
  import opened Wrappers
  import opened Seqs

  /** The characters matched by `\s` and removed by `trim()`. */
  predicate IsSpace(c: char) {
    || c == ' ' || c == '\t' || c == '\n' || c == '\r' || c == '\U{B}' || c == '\U{C}'
    || c == '\U{A0}' || c == '\U{1680}' || ('\U{2000}' <= c <= '\U{200A}')
    || c == '\U{2028}' || c == '\U{2029}' || c == '\U{202F}' || c == '\U{205F}'
    || c == '\U{3000}' || c == '\U{FEFF}'
  }

  /** JavaScript truthiness of an optional string: present and non-empty. */
  predicate Truthy(s: Option<string>) {
    s.Some? && s.value != ""
  }

  /** `s || fallback` for an optional string. */
  function Or(s: Option<string>, fallback: string): string {
    if Truthy(s) then s.value else fallback
  }

  /** What a template literal prints for an optional string (`undefined` when absent). */
  function Show(s: Option<string>): string {
    if s.Some? then s.value else "undefined"
  }

  /** `${a || b}` inside a template literal. */
  function ShowOr(a: Option<string>, b: Option<string>): string {
    if Truthy(a) then a.value else Show(b)
  }

  predicate StartsWith(s: string, prefix: string) {
    |prefix| <= |s| && s[..|prefix|] == prefix
  }

  // ---------------------------------------------------------------- trimming

  function TrimStart(s: string): (r: string)
    ensures |r| <= |s| && r == s[|s| - |r|..]
    ensures r == [] || !IsSpace(r[0])
    ensures forall i :: 0 <= i < |s| - |r| ==> IsSpace(s[i])
  {
    if s != [] && IsSpace(s[0]) then TrimStart(s[1..]) else s
  }

  function TrimEnd(s: string): (r: string)
    ensures |r| <= |s| && r == s[..|r|]
    ensures r == [] || !IsSpace(r[|r| - 1])
    ensures forall i :: |r| <= i < |s| ==> IsSpace(s[i])
  {
    if s != [] && IsSpace(s[|s| - 1]) then TrimEnd(s[..|s| - 1]) else s
  }

  /** `s.trim()`: the slice of `s` between its leading and trailing whitespace. */
  function Trim(s: string): (r: string)
    ensures |r| <= |s|
    ensures |r| <= |TrimStart(s)| && r == TrimStart(s)[..|r|]
    ensures r == [] || (!IsSpace(r[0]) && !IsSpace(r[|r| - 1]))
    ensures r == [] <==> forall i :: 0 <= i < |s| ==> IsSpace(s[i])
  {
    var t := TrimStart(s);
    var r := TrimEnd(t);
    assert r == [] ==> t == [];
    r
  }

  /** A string that neither starts nor ends with whitespace is its own trim. */
  lemma TrimUnspaced(t: string)
    requires t != [] && !IsSpace(t[0]) && !IsSpace(t[|t| - 1])
    ensures Trim(t) == t
  {
  }

  // ------------------------------------------------------ collapsing spaces

  /** `s.replace(/\s+/g, ' ')`: every maximal run of whitespace becomes one space. */
  function Collapse(s: string): (r: string)
    ensures |r| <= |s|
    ensures s != [] ==> r != [] && r[0] == (if IsSpace(s[0]) then ' ' else s[0])
    ensures SingleSpaced(r)
    decreases |s|
  {
    if s == [] then []
    else if IsSpace(s[0]) then
      var t := Collapse(TrimStart(s[1..]));
      SingleSpacedCons(' ', t);
      [' '] + t
    else
      var t := Collapse(s[1..]);
      SingleSpacedCons(s[0], t);
      [s[0]] + t
  }

  /** The characters of `s` that are not whitespace, in order. */
  function Words(s: string): string {
    if s == [] then [] else (if IsSpace(s[0]) then [] else [s[0]]) + Words(s[1..])
  }

  lemma {:induction false} WordsAppend(a: string, b: string)
    ensures Words(a + b) == Words(a) + Words(b)
  {
    if a == [] {
      assert a + b == b;
    } else {
      assert (a + b)[0] == a[0];
      assert (a + b)[1..] == a[1..] + b;
      WordsAppend(a[1..], b);
    }
  }

  lemma {:induction false} WordsTrimStart(s: string)
    ensures Words(TrimStart(s)) == Words(s)
  {
    if s != [] && IsSpace(s[0]) {
      WordsTrimStart(s[1..]);
    }
  }

  /** Collapsing whitespace keeps every other character, in order. */
  lemma {:induction false} CollapseKeepsWords(s: string)
    ensures Words(Collapse(s)) == Words(s)
    decreases |s|
  {
    if s != [] {
      if IsSpace(s[0]) {
        var t := TrimStart(s[1..]);
        WordsAppend([' '], Collapse(t));
        CollapseKeepsWords(t);
        WordsTrimStart(s[1..]);
      } else {
        WordsAppend([s[0]], Collapse(s[1..]));
        CollapseKeepsWords(s[1..]);
      }
    }
  }

  /** The only whitespace is a plain space, and no two whitespace characters are adjacent. */
  predicate SingleSpaced(r: string) {
    && (forall i :: 0 <= i < |r| && IsSpace(r[i]) ==> r[i] == ' ')
    && (forall i :: 0 <= i < |r| - 1 ==> !(IsSpace(r[i]) && IsSpace(r[i + 1])))
  }

  /** One more character in front keeps a text single-spaced unless it makes two spaces meet. */
  lemma SingleSpacedCons(c: char, t: string)
    requires SingleSpaced(t)
    requires IsSpace(c) ==> c == ' ' && (t == [] || !IsSpace(t[0]))
    ensures SingleSpaced([c] + t)
  {
    var r := [c] + t;
    forall i | 0 <= i < |r| - 1 ensures !(IsSpace(r[i]) && IsSpace(r[i + 1])) {
      if i > 0 {
        assert r[i] == t[i - 1] && r[i + 1] == t[i];
      }
    }
    forall i | 0 <= i < |r| && IsSpace(r[i]) ensures r[i] == ' ' {
      if i > 0 {
        assert r[i] == t[i - 1];
      }
    }
  }

  lemma SingleSpacedSlice(c: string, a: nat, b: nat)
    requires a <= b <= |c| && SingleSpaced(c)
    ensures SingleSpaced(c[a..b])
  {
    var r := c[a..b];
    forall i | 0 <= i < |r| - 1 ensures !(IsSpace(r[i]) && IsSpace(r[i + 1])) {
      assert r[i] == c[a + i] && r[i + 1] == c[a + i + 1];
    }
  }

  /** Trimming both ends of a single-spaced text keeps it single-spaced. */
  lemma TrimKeepsSingleSpaced(c: string)
    requires SingleSpaced(c)
    ensures SingleSpaced(TrimEnd(TrimStart(c)))
  {
    var t := TrimStart(c);
    SingleSpacedSlice(c, |c| - |t|, |c|);
    SingleSpacedSlice(t, 0, |TrimEnd(t)|);
  }

  /** `s.replace(/\s+/g, ' ').trim()`. */
  function Normalize(s: string): (r: string)
    ensures |r| <= |s|
    ensures r == [] || (!IsSpace(r[0]) && !IsSpace(r[|r| - 1]))
    ensures SingleSpaced(r)
  {
    TrimKeepsSingleSpaced(Collapse(s));
    TrimEnd(TrimStart(Collapse(s)))
  }

  lemma {:induction false} WordsAllSpace(s: string)
    requires forall i :: 0 <= i < |s| ==> IsSpace(s[i])
    ensures Words(s) == []
  {
    if s != [] {
      WordsAllSpace(s[1..]);
    }
  }

  lemma WordsTrimEnd(t: string)
    ensures Words(TrimEnd(t)) == Words(t)
  {
    var r := TrimEnd(t);
    assert t == r + t[|r|..];
    WordsAppend(r, t[|r|..]);
    WordsAllSpace(t[|r|..]);
  }

  /** Normalizing removes whitespace only: every other character survives, in order. */
  lemma NormalizeKeepsWords(s: string)
    ensures Words(Normalize(s)) == Words(s)
  {
    var c := Collapse(s);
    CollapseKeepsWords(s);
    WordsTrimStart(c);
    WordsTrimEnd(TrimStart(c));
  }

  /**
   * `s.replace(/\s+/g, ' ').trim().substring(0, cap)`. The cut comes after the
   * trim, so only a result shorter than `cap` is sure to end in a non-space.
   */
  function CleanAndCap(s: string, cap: nat): (r: string)
    ensures |r| <= cap
    ensures r == [] || !IsSpace(r[0])
    ensures SingleSpaced(r)
    ensures |r| < cap ==> r == Normalize(s) && (r == [] || !IsSpace(r[|r| - 1]))
    ensures |r| <= |Normalize(s)| && r == Normalize(s)[..|r|]
  {
    var n := Normalize(s);
    var r := Take(n, cap);
    SingleSpacedSlice(n, 0, |r|);
    r
  }

  /** A capped text is the normalized text cut short: its characters are a prefix of the input's. */
  lemma CleanAndCapKeepsWords(s: string, cap: nat)
    ensures Words(s) == Words(CleanAndCap(s, cap)) + Words(Normalize(s)[|CleanAndCap(s, cap)|..])
  {
    var n := Normalize(s);
    var r := CleanAndCap(s, cap);
    NormalizeKeepsWords(s);
    assert n == r + n[|r|..];
    WordsAppend(r, n[|r|..]);
  }

  /** The cut after the trim can leave a trailing space: `"a b"` capped at 2 is `"a "`. */
  lemma CutCanEndInSpace()
    ensures CleanAndCap("a b", 2) == "a "
  {
    var b: string := "b";
    assert !IsSpace('b') && b[1..] == [];
    assert Collapse(b) == b;
    assert TrimStart(b) == b;
    var sb: string := " b";
    assert IsSpace(' ') && sb[1..] == b;
    assert Collapse(sb) == sb;
    var s: string := "a b";
    assert !IsSpace('a') && s[1..] == sb;
    assert Collapse(s) == s;
    assert TrimStart(s) == s;
    assert s[..|s| - 1] == "a " && TrimEnd(s) == s;
    assert Normalize(s) == s;
  }

  // --------------------------------------------------------------- substring

  function Clamp(x: int, n: nat): (r: nat)
    ensures r <= n
  {
    if x < 0 then 0 else if x > n then n else x
  }

  /** `s.substring(start, end)`: both ends clamped to the string, swapped when reversed. */
  function Substring(s: string, start: int, end: int): (r: string)
    ensures |r| <= if start <= end then end - start else start - end
    ensures 0 <= start <= end <= |s| ==> r == s[start..end]
  {
    var a := Clamp(start, |s|);
    var b := Clamp(end, |s|);
    if a <= b then s[a..b] else s[b..a]
  }

  // -------------------------------------------------------------- ASCII case

  function LowerChar(c: char): char {
    if 'A' <= c <= 'Z' then (c as int + 32) as char else c
  }

  function UpperChar(c: char): char {
    if 'a' <= c <= 'z' then (c as int - 32) as char else c
  }

  function Lower(s: string): (r: string)
    ensures |r| == |s|
    ensures forall i :: 0 <= i < |s| ==> r[i] == LowerChar(s[i])
  {
    seq(|s|, i requires 0 <= i < |s| => LowerChar(s[i]))
  }

  function Upper(s: string): (r: string)
    ensures |r| == |s|
    ensures forall i :: 0 <= i < |s| ==> r[i] == UpperChar(s[i])
  {
    seq(|s|, i requires 0 <= i < |s| => UpperChar(s[i]))
  }

  // ------------------------------------------------------ includes / indexOf

  predicate OccursAt(s: string, sub: string, i: int) {
    0 <= i && i + |sub| <= |s| && s[i..i + |sub|] == sub
  }

  /** `s.includes(sub)`. */
  predicate Contains(s: string, sub: string) {
    exists i | 0 <= i <= |s| :: OccursAt(s, sub, i)
  }

  lemma ContainsInside(a: string, b: string, c: string)
    ensures Contains(a + b + c, b)
  {
    assert (a + b + c)[|a|..|a| + |b|] == b;
    assert OccursAt(a + b + c, b, |a|);
  }

  /** A text made of five parts starts with the first and contains the second and the fourth. */
  lemma FiveParts(a: string, b: string, c: string, d: string, e: string)
    ensures StartsWith(a + b + c + d + e, a)
    ensures Contains(a + b + c + d + e, b) && Contains(a + b + c + d + e, d)
  {
    var r := a + b + c + d + e;
    ContainsInside(a + b + c, d, e);
    assert r == a + b + (c + d + e);
    ContainsInside(a, b, c + d + e);
    assert r == a + (b + c + d + e);
    assert r[..|a|] == a;
  }

  /** Every character of an occurring string occurs in the text. */
  lemma ContainsNeedsChar(s: string, sub: string, c: char)
    requires c in sub
    ensures Contains(s, sub) ==> c in s
  {
    if Contains(s, sub) {
      var i :| 0 <= i <= |s| && OccursAt(s, sub, i);
      var k :| 0 <= k < |sub| && sub[k] == c;
      assert s[i..i + |sub|][k] == s[i + k];
    }
  }

  function IndexFrom(s: string, sub: string, k: nat): (r: int)
    requires k <= |s|
    ensures r == -1 || (k <= r && OccursAt(s, sub, r))
    ensures forall j :: k <= j && (r == -1 || j < r) ==> !OccursAt(s, sub, j)
    decreases |s| - k
  {
    if OccursAt(s, sub, k) then k else if k == |s| then -1 else IndexFrom(s, sub, k + 1)
  }

  /** `s.indexOf(sub)`: the first occurrence, or -1. */
  function IndexOf(s: string, sub: string): (r: int)
    ensures r == -1 <==> !Contains(s, sub)
    ensures r != -1 ==> OccursAt(s, sub, r) && forall j :: 0 <= j < r ==> !OccursAt(s, sub, j)
  {
    IndexFrom(s, sub, 0)
  }

  // ---------------------------------------------------------- split and join

  /** `s.split(sep).pop()`: the text after the last `sep`, or all of `s`. */
  function AfterLast(s: string, sep: char): (r: string)
    ensures |r| <= |s| && r == s[|s| - |r|..]
    ensures sep !in r
    ensures |r| < |s| ==> s[|s| - |r| - 1] == sep
  {
    if s == [] then []
    else if s[|s| - 1] == sep then []
    else AfterLast(s[..|s| - 1], sep) + [s[|s| - 1]]
  }

  /** After the last `sep` at index `i`, the last piece is everything past `i`. */
  lemma AfterLastAt(s: string, sep: char, i: nat)
    requires i < |s| && s[i] == sep && sep !in s[i + 1..]
    ensures AfterLast(s, sep) == s[i + 1..]
  {
  }

  /** Without `sep` in it, the whole string is the last piece. */
  lemma {:induction false} AfterLastWithoutSep(s: string, sep: char)
    requires sep !in s
    ensures AfterLast(s, sep) == s
  {
    if s != [] {
      assert forall c :: c in s[..|s| - 1] ==> c in s;
      AfterLastWithoutSep(s[..|s| - 1], sep);
      assert s == s[..|s| - 1] + [s[|s| - 1]];
    }
  }

  /** `parts.join(sep)`. */
  function Join(parts: seq<string>, sep: string): string {
    if parts == [] then ""
    else if |parts| == 1 then parts[0]
    else parts[0] + sep + Join(parts[1..], sep)
  }

  function DigitChar(d: nat): char
    requires d < 10
  {
    "0123456789"[d]
  }

  /** `String(n)` for a natural number. */
  function NatToString(n: nat): (r: string)
    ensures r != []
  {
    if n < 10 then [DigitChar(n)] else NatToString(n / 10) + [DigitChar(n % 10)]
  }

  // ------------------------------------------------------ keyword patterns

  /** `\w` in a regular expression without the `u` flag. */
  predicate IsWordChar(c: char) {
    'a' <= c <= 'z' || 'A' <= c <= 'Z' || '0' <= c <= '9' || c == '_'
  }

  /** The lower-case `word` occurs at `i` ignoring ASCII case, with `\b` on both sides. */
  predicate WordAt(s: string, word: string, i: int) {
    && 0 <= i && i + |word| <= |s|
    && Lower(s[i..i + |word|]) == word
    && (i == 0 || !IsWordChar(s[i - 1]))
    && (i + |word| == |s| || !IsWordChar(s[i + |word|]))
  }

  predicate HasWord(s: string, word: string) {
    exists i | 0 <= i <= |s| :: WordAt(s, word, i)
  }

  /** `/\b(w0|w1|...)\b/i.test(s)` for lower-case alternatives. */
  predicate MatchesAnyWord(s: string, words: seq<string>) {
    exists k | 0 <= k < |words| :: HasWord(s, words[k])
  }
}
