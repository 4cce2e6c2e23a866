/**
 * The few Python `str` operations the scripts and the server rely on:
 * `isspace`, `strip`/`lstrip`, `in`, `find`, `split`, `join` and `lower`.
 */
module Text {

  /** Python's `str.isspace()`: the characters `strip()` removes when called without arguments. */
  predicate IsSpace(c: char) {
    || ('\t' <= c <= '\r')
    || ('\U{1C}' <= c <= '\U{20}')
    || c == '\U{85}' || c == '\U{A0}' || c == '\U{1680}'
    || ('\U{2000}' <= c <= '\U{200A}')
    || c == '\U{2028}' || c == '\U{2029}' || c == '\U{202F}' || c == '\U{205F}' || c == '\U{3000}'
  }

  /** Number of leading whitespace characters: `len(s) - len(s.lstrip())`. */
  function LeadingWs(s: string): (n: nat)
    ensures n <= |s|
    ensures forall k :: 0 <= k < n ==> IsSpace(s[k])
    ensures n < |s| ==> !IsSpace(s[n])
  {
    if |s| > 0 && IsSpace(s[0]) then 1 + LeadingWs(s[1..]) else 0
  }

  /** Number of trailing whitespace characters. */
  function TrailingWs(s: string): (n: nat)
    ensures n <= |s|
    ensures forall k :: |s| - n <= k < |s| ==> IsSpace(s[k])
    ensures n < |s| ==> !IsSpace(s[|s| - 1 - n])
  {
    if |s| > 0 && IsSpace(s[|s| - 1]) then 1 + TrailingWs(s[..|s| - 1]) else 0
  }

  /** Python's `s.strip()`: the slice of `s` between its leading and trailing whitespace. */
  function Strip(s: string): (r: string)
    ensures LeadingWs(s) + |r| <= |s| && r == s[LeadingWs(s)..LeadingWs(s) + |r|]
    ensures LeadingWs(s) < |s| ==> |r| > 0
    ensures |r| > 0 ==> !IsSpace(r[0]) && !IsSpace(r[|r| - 1])
    ensures forall k :: LeadingWs(s) + |r| <= k < |s| ==> IsSpace(s[k])
  {
    var t := s[LeadingWs(s)..];
    t[..|t| - TrailingWs(t)]
  }

  /** `n` blanks: Python's `' ' * n`. */
  function Spaces(n: nat): (r: string)
    ensures |r| == n && forall k :: 0 <= k < n ==> r[k] == ' '
  {
    seq(n, _ => ' ')
  }

  /** Blanks followed by a non-blank text have exactly that many leading whitespace characters. */
  lemma {:induction false} LeadingWsOfIndented(n: nat, x: string)
    requires |x| > 0 && !IsSpace(x[0])
    ensures LeadingWs(Spaces(n) + x) == n
    ensures (Spaces(n) + x)[n..] == x
  {
    if n > 0 {
      assert (Spaces(n) + x)[1..] == Spaces(n - 1) + x;
      LeadingWsOfIndented(n - 1, x);
    } else {
      assert Spaces(n) + x == x;
    }
  }

  /** An indented text with a line terminator strips down to the text itself. */
  lemma StripIndented(k: nat, x: string)
    requires |x| > 0 && !IsSpace(x[0]) && !IsSpace(x[|x| - 1])
    ensures Strip(Spaces(k) + x + "\n") == x
    ensures LeadingWs(Spaces(k) + x + "\n") == k
  {
    var s := Spaces(k) + x + "\n";
    assert s == Spaces(k) + (x + "\n");
    LeadingWsOfIndented(k, x + "\n");
    var t := x + "\n";
    assert s[k..] == t;
    assert t[..|t| - 1] == x;
    assert TrailingWs(x) == 0;
    assert TrailingWs(t) == 1;
  }

  /** `sub` occurs in `s` starting at index `k`. */
  predicate OccursAt(s: string, sub: string, k: nat) {
    k + |sub| <= |s| && s[k..k + |sub|] == sub
  }

  /** Two texts found back to back form their concatenation. */
  lemma OccursConcat(s: string, a: string, b: string, k: nat)
    requires OccursAt(s, a, k) && OccursAt(s, b, k + |a|)
    ensures OccursAt(s, a + b, k)
  {
    assert s[k..k + |a| + |b|] == s[k..k + |a|] + s[k + |a|..k + |a| + |b|];
  }

  /** An occurrence of a concatenation is an occurrence of each part, back to back. */
  lemma OccursSplit(s: string, a: string, b: string, k: nat)
    requires OccursAt(s, a + b, k)
    ensures OccursAt(s, a, k) && OccursAt(s, b, k + |a|)
  {
    assert s[k..k + |a|] == (a + b)[..|a|];
    assert s[k + |a|..k + |a| + |b|] == (a + b)[|a|..];
  }

  /** Occurrences in a suffix are occurrences in the whole text, shifted. */
  lemma OccursInSuffix(s: string, x: string, j: nat, k: nat)
    requires j <= |s|
    ensures OccursAt(s[j..], x, k) <==> OccursAt(s, x, j + k)
  {
    if k + |x| <= |s| - j {
      assert s[j..][k..k + |x|] == s[j + k..j + k + |x|];
    }
  }

  /** Being a prefix is occurring at index 0. */
  lemma PrefixOccurs(x: string, s: string)
    ensures x <= s <==> OccursAt(s, x, 0)
  {
    if |x| <= |s| {
      assert x <= s <==> x == s[..|x|];
    }
  }

  /** `x + y` starts `s` exactly when `x` does and `y` starts what follows it. */
  lemma PrefixConcat(s: string, x: string, y: string)
    ensures x + y <= s <==> x <= s && y <= s[|x|..]
  {
    if x <= s && y <= s[|x|..] {
      assert (x + y) == s[..|x| + |y|] by {
        assert s[..|x| + |y|] == s[..|x|] + s[|x|..][..|y|];
      }
    }
    if x + y <= s {
      assert s[..|x|] == (x + y)[..|x|];
      assert s[|x|..][..|y|] == (x + y)[|x|..];
    }
  }

  /** A prefix of a suffix is an occurrence at the suffix's start. */
  lemma PrefixOfSuffix(s: string, x: string, j: nat)
    requires j <= |s| && x <= s[j..]
    ensures OccursAt(s, x, j)
  {
    assert s[j..][..|x|] == s[j..j + |x|];
  }

  /** A single character occurs where it stands. */
  lemma CharOccurs(s: string, k: nat)
    requires k < |s|
    ensures OccursAt(s, [s[k]], k)
  {
    assert s[k..k + 1] == [s[k]];
  }

  /** Python's `s.find(sub, k)`: the first index at or after `k` where `sub` occurs, or -1. */
  function IndexFrom(s: string, sub: string, k: nat): (r: int)
    requires k <= |s|
    decreases |s| - k
    ensures r == -1 || (k <= r <= |s| && OccursAt(s, sub, r))
    ensures r == -1 ==> forall m :: k <= m <= |s| ==> !OccursAt(s, sub, m)
    ensures r != -1 ==> forall m :: k <= m < r ==> !OccursAt(s, sub, m)
  {
    if OccursAt(s, sub, k) then k
    else if k == |s| then -1
    else IndexFrom(s, sub, k + 1)
  }

  /** Python's `s.find(sub)`. */
  function IndexOf(s: string, sub: string): int {
    IndexFrom(s, sub, 0)
  }

  /** Python's `sub in s`. */
  predicate Contains(s: string, sub: string) {
    IndexOf(s, sub) >= 0
  }

  /** A text that occurs somewhere is contained. */
  lemma OccursContains(s: string, sub: string, k: nat)
    requires OccursAt(s, sub, k)
    ensures Contains(s, sub)
  {
  }

  /** An occurrence inside an occurrence is an occurrence in the whole text. */
  lemma OccursNested(s: string, x: string, k: nat, y: string, j: nat)
    requires OccursAt(s, x, k) && OccursAt(x, y, j)
    ensures OccursAt(s, y, k + j)
  {
    forall i | 0 <= i < |y| ensures s[k + j + i] == y[i] {
      assert y[i] == x[j..j + |y|][i] == x[j + i];
      assert x[j + i] == s[k..k + |x|][j + i];
    }
    assert s[k + j..k + j + |y|] == y;
  }

  /** Searching for a one-character text is testing membership of that character. */
  lemma ContainsChar(s: string, c: char)
    ensures Contains(s, [c]) <==> c in s
  {
    if c in s {
      var k :| 0 <= k < |s| && s[k] == c;
      assert OccursAt(s, [c], k) by { CharOccurs(s, k); }
    }
    if Contains(s, [c]) {
      var k := IndexOf(s, [c]);
      assert s[k..k + 1] == [c];
      assert s[k] == c;
    }
  }

  /** Stripping never brings in a character that was not there. */
  lemma StripKeepsOut(s: string, c: char)
    requires c !in s
    ensures c !in Strip(s)
  {
    var r := Strip(s);
    forall k | 0 <= k < |r| ensures r[k] != c {
      assert r[k] == s[LeadingWs(s) + k];
    }
  }

  /** A text lacking one of the characters of `sub` does not contain `sub`. */
  lemma NotContainsMissing(s: string, sub: string, k: nat)
    requires k < |sub| && sub[k] !in s
    ensures !Contains(s, sub)
  {
    forall p: nat | p + |sub| <= |s| ensures !OccursAt(s, sub, p) {
      assert s[p..p + |sub|][k] == s[p + k];
    }
  }

  /** Python's `s.split(c)[0]`: everything before the first `c`, or all of `s`. */
  function BeforeChar(s: string, c: char): (r: string)
    ensures r <= s && c !in r
    ensures |r| < |s| ==> s[|r|] == c
  {
    if |s| == 0 || s[0] == c then "" else [s[0]] + BeforeChar(s[1..], c)
  }

  /** Cutting `x + rest` at `c` stops at the end of `x` when `x` lacks `c` and `rest` starts with it. */
  lemma {:induction false} BeforeCharPrefix(x: string, rest: string, c: char)
    requires c !in x && |rest| > 0 && rest[0] == c
    ensures BeforeChar(x + rest, c) == x
    decreases |x|
  {
    if |x| > 0 {
      assert (x + rest)[1..] == x[1..] + rest;
      BeforeCharPrefix(x[1..], rest, c);
    } else {
      assert x + rest == rest;
    }
  }

  /** Cutting a text that lacks `c` at `c` keeps all of it. */
  lemma {:induction false} BeforeCharNone(x: string, c: char)
    requires c !in x
    ensures BeforeChar(x, c) == x
    decreases |x|
  {
    if |x| > 0 {
      BeforeCharNone(x[1..], c);
      assert x == [x[0]] + x[1..];
    }
  }

  /** Python's `s.split(c)` for a one-character separator. */
  function Split(s: string, c: char): (pieces: seq<string>)
    ensures |pieces| >= 1
    ensures forall k :: 0 <= k < |pieces| ==> c !in pieces[k]
    decreases |s|
  {
    var head := BeforeChar(s, c);
    if |head| == |s| then [s] else [head] + Split(s[|head| + 1..], c)
  }

  /** Python's `sep.join(pieces)`. */
  function Join(pieces: seq<string>, sep: string): string
    decreases |pieces|
  {
    if |pieces| == 0 then ""
    else if |pieces| == 1 then pieces[0]
    else pieces[0] + sep + Join(pieces[1..], sep)
  }

  /** Splitting at `c` and joining with `c` gives back the original text. */
  lemma {:induction false} JoinSplit(s: string, c: char)
    ensures Join(Split(s, c), [c]) == s
    decreases |s|
  {
    var head := BeforeChar(s, c);
    if |head| < |s| {
      var rest := s[|head| + 1..];
      SplitAtFirst(s, c);
      JoinSplit(rest, c);
      JoinCons(head, Split(rest, c), [c]);
    }
  }

  /** Joining pieces that lack `c` with `c` and splitting at `c` gives back the pieces. */
  lemma {:induction false} SplitJoin(pieces: seq<string>, c: char)
    requires |pieces| >= 1 && forall k :: 0 <= k < |pieces| ==> c !in pieces[k]
    ensures Split(Join(pieces, [c]), c) == pieces
    decreases |pieces|
  {
    var head := pieces[0];
    if |pieces| == 1 {
      BeforeCharNone(head, c);
    } else {
      var tail := pieces[1..];
      var rest := Join(tail, [c]);
      var s := head + [c] + rest;
      assert Join(pieces, [c]) == s by {
        assert pieces == [head] + tail;
        JoinCons(head, tail, [c]);
      }
      assert s == head + ([c] + rest);
      BeforeCharPrefix(head, [c] + rest, c);
      assert s[|head| + 1..] == rest;
      SplitJoin(tail, c);
      assert pieces == [head] + tail;
    }
  }

  /** When `c` occurs, the first piece is the text before it and the others are the pieces of the text after it. */
  lemma SplitAtFirst(s: string, c: char)
    requires |BeforeChar(s, c)| < |s|
    ensures var head := BeforeChar(s, c);
      && Split(s, c) == [head] + Split(s[|head| + 1..], c)
      && s == head + [c] + s[|head| + 1..]
  {
    var head := BeforeChar(s, c);
    assert s[..|head|] == head && s[|head|] == c;
    assert s == s[..|head|] + [s[|head|]] + s[|head| + 1..];
  }

  /** Joining a piece in front of at least one more puts the separator after it. */
  lemma JoinCons(head: string, tail: seq<string>, sep: string)
    requires |tail| >= 1
    ensures Join([head] + tail, sep) == head + sep + Join(tail, sep)
  {
    assert ([head] + tail)[1..] == tail;
  }

  /** Python's `str.lower()` on ASCII letters. */
  function LowerChar(c: char): (r: char)
    ensures 'A' <= c <= 'Z' ==> r as int == c as int + 32 && 'a' <= r <= 'z'
    ensures !('A' <= c <= 'Z') ==> r == c
  {
    if 'A' <= c <= 'Z' then (c as int + 32) as char else c
  }

  /** Lower-casing character by character: no ASCII capital is left, and every other character is kept. */
  function ToLower(s: string): (r: string)
    ensures |r| == |s|
    ensures forall k :: 0 <= k < |s| ==> r[k] == LowerChar(s[k])
    ensures forall k :: 0 <= k < |r| ==> !('A' <= r[k] <= 'Z')
  {
    seq(|s|, k requires 0 <= k < |s| => LowerChar(s[k]))
  }

  /** A character of the regular-expression class `\w`, restricted to ASCII. */
  predicate IsWordChar(c: char) {
    ('a' <= c <= 'z') || ('A' <= c <= 'Z') || ('0' <= c <= '9') || c == '_'
  }

  /** A non-empty run of `\w` characters. */
  predicate IsWord(s: string) {
    |s| > 0 && forall k :: 0 <= k < |s| ==> IsWordChar(s[k])
  }

  /** Length of the run of `\w` characters starting at index `i`: what a greedy `\w+` consumes there. */
  function WordRun(s: string, i: nat): (n: nat)
    requires i <= |s|
    decreases |s| - i
    ensures i + n <= |s|
  {
    if i < |s| && IsWordChar(s[i]) then 1 + WordRun(s, i + 1) else 0
  }

  /** The run is all word characters, and it stops at the first character that is not one. */
  lemma {:induction false} WordRunSpan(s: string, i: nat)
    requires i <= |s|
    ensures forall k :: i <= k < i + WordRun(s, i) ==> IsWordChar(s[k])
    ensures i + WordRun(s, i) < |s| ==> !IsWordChar(s[i + WordRun(s, i)])
    decreases |s| - i
  {
    if i < |s| && IsWordChar(s[i]) {
      WordRunSpan(s, i + 1);
    }
  }

  /** A word found at `a` and followed by a non-word character is exactly what `\w+` consumes from `a`. */
  lemma WordRunAt(s: string, w: string, a: nat)
    requires IsWord(w) && OccursAt(s, w, a)
    requires a + |w| < |s| && !IsWordChar(s[a + |w|])
    ensures WordRun(s, a) == |w|
  {
    WordRunSpan(s, a);
    forall k | a <= k < a + |w| ensures IsWordChar(s[k]) {
      assert s[k] == s[a..a + |w|][k - a] == w[k - a];
    }
  }
}
