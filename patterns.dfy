/**
 * Hand-written matchers for the two regular expressions of add_comprehensive_logging.py:
 *   re.match(r'async def (\w+)\(ctx: Context(?:, (.+))?\) -> dict:', line)
 *   re.search(r'await drone\.(\w+)\.(\w+)\((.*?)\)', line)
 * each with the shape of the text it accepts stated as lemmas.
 */
module Patterns {
  import opened Wrappers
  import opened Text

  /** The two groups of a matched tool signature; `params` is "" when the optional group is absent. */
  datatype Signature = Signature(name: string, params: string)

  const DefPrefix := "async def "
  const CtxParam := "(ctx: Context"
  const ReturnsDict := ") -> dict:"

  /** The text a line must begin with to match the signature pattern with these groups. */
  function SignatureText(sig: Signature): string {
    DefPrefix + sig.name + CtxParam + (if sig.params == "" then "" else ", " + sig.params) + ReturnsDict
  }

  /** The largest `m` in [lo, hi] at which `) -> dict:` occurs in `r`, or -1. */
  function LastReturnsDict(r: string, lo: nat, hi: nat): (m: int)
    requires hi <= |r|
    decreases hi
    ensures m == -1 || (lo <= m <= hi && OccursAt(r, ReturnsDict, m))
    ensures m == -1 ==> forall p :: lo <= p <= hi ==> !OccursAt(r, ReturnsDict, p)
    ensures m != -1 ==> forall p :: m < p <= hi ==> !OccursAt(r, ReturnsDict, p)
  {
    if hi < lo then -1
    else if OccursAt(r, ReturnsDict, hi) then hi
    else if hi == 0 then -1
    else LastReturnsDict(r, lo, hi - 1)
  }

  /** How far `(.+)` may reach in `tail` (which starts with ", "): up to the first newline. */
  function NewlineLimit(tail: string): (hi: nat)
    requires |tail| >= 2
    ensures 2 <= hi <= |tail|
    ensures forall k :: 2 <= k < hi ==> tail[k] != '\n'
    ensures hi < |tail| ==> tail[hi] == '\n'
  {
    var nl := IndexFrom(tail, "\n", 2);
    if nl == -1 then
      assert forall k :: 2 <= k < |tail| ==> tail[k] != '\n' by {
        forall k | 2 <= k < |tail| ensures tail[k] != '\n' {
          assert !OccursAt(tail, "\n", k);
          assert tail[k..k + 1] == [tail[k]];
        }
      }
      |tail|
    else
      assert forall k :: 2 <= k < nl ==> tail[k] != '\n' by {
        forall k | 2 <= k < nl ensures tail[k] != '\n' {
          assert !OccursAt(tail, "\n", k);
          assert tail[k..k + 1] == [tail[k]];
        }
      }
      assert tail[nl..nl + 1] == "\n";
      nl
  }

  /**
   * The length of the `\w+` name when the line starts `async def NAME(ctx: Context`, else -1.
   * `\w+` is greedy and `(` is not a word character, so the name is the whole run of word characters.
   */
  function HeadName(line: string): (w: int)
    ensures w == -1 || (w > 0 && |DefPrefix| + w + |CtxParam| <= |line|)
    ensures w != -1 ==> IsWord(line[|DefPrefix|..|DefPrefix| + w])
    ensures w != -1 ==> OccursAt(line, DefPrefix + line[|DefPrefix|..|DefPrefix| + w] + CtxParam, 0)
  {
    if !(DefPrefix <= line) then -1
    else
      var w := WordRun(line, |DefPrefix|);
      if w == 0 || !(CtxParam <= line[|DefPrefix| + w..]) then -1
      else
        WordRunIsWord(line, |DefPrefix|);
        PrefixOfSuffix(line, DefPrefix, 0);
        OccursConcat(line, DefPrefix, line[|DefPrefix|..|DefPrefix| + w], 0);
        PrefixOfSuffix(line, CtxParam, |DefPrefix| + w);
        OccursConcat(line, DefPrefix + line[|DefPrefix|..|DefPrefix| + w], CtxParam, 0);
        w
  }

  /**
   * What follows `Context` in a matching line: `(?:, (.+))?\) -> dict:`. The result is the parameter group,
   * "" when the optional group does not take part; `(.+)` is greedy, so it ends at the last `) -> dict:`
   * before the first newline.
   */
  function MatchTail(tail: string): (r: Option<string>)
    ensures r.Some? ==> '\n' !in r.value
    ensures r == Some("") ==> ReturnsDict <= tail
    ensures r.Some? && r.value != "" ==> ", " + r.value + ReturnsDict <= tail
  {
    var m := if |tail| >= 3 && tail[..2] == ", " then LastReturnsDict(tail, 3, NewlineLimit(tail)) else -1;
    if m != -1 then
      var p := tail[2..m];
      assert '\n' !in p by {
        forall k | 0 <= k < |p| ensures p[k] != '\n' {
          assert p[k] == tail[2 + k];
        }
      }
      assert tail[..m] == ", " + p;
      PrefixOfSuffix(tail, ", " + p, 0);
      OccursConcat(tail, ", " + p, ReturnsDict, 0);
      PrefixOccurs(", " + p + ReturnsDict, tail);
      Some(p)
    else if ReturnsDict <= tail then Some("")
    else None
  }

  /** `re.match` of the tool-signature pattern against a line. */
  function MatchSignature(line: string): (r: Option<Signature>)
    ensures r.Some? ==> IsWord(r.value.name) && '\n' !in r.value.params
    ensures r.Some? ==> OccursAt(line, DefPrefix + r.value.name + CtxParam, 0)
  {
    var w := HeadName(line);
    if w == -1 then None
    else
      match MatchTail(line[|DefPrefix| + w + |CtxParam|..])
      case None => None
      case Some(params) => Some(Signature(line[|DefPrefix|..|DefPrefix| + w], params))
  }

  /** A match has a non-empty `\w+` name, parameters on one line, and the line starts with the signature text. */
  lemma MatchSignatureSound(line: string)
    requires MatchSignature(line).Some?
    ensures var sig := MatchSignature(line).value;
      IsWord(sig.name) && '\n' !in sig.params && SignatureText(sig) <= line
  {
    var sig := MatchSignature(line).value;
    MatchSignatureParts(line);
    SignatureTextOfParts(sig, line);
  }

  /** The head of a signature found at the start of a line, and its tail after it, make up its signature text. */
  lemma SignatureTextOfParts(sig: Signature, line: string)
    requires OccursAt(line, DefPrefix + sig.name + CtxParam, 0)
    requires (if sig.params == "" then "" else ", " + sig.params) + ReturnsDict
      <= line[|DefPrefix + sig.name + CtxParam|..]
    ensures SignatureText(sig) <= line
  {
    var head := DefPrefix + sig.name + CtxParam;
    var opt := if sig.params == "" then "" else ", " + sig.params;
    PrefixOccurs(head, line);
    PrefixConcat(line, head, opt + ReturnsDict);
    assert SignatureText(sig) == head + (opt + ReturnsDict);
  }

  /** The pieces a signature match is read from: the head with its word name, and the match of the tail after it. */
  lemma MatchSignatureParts(line: string)
    requires MatchSignature(line).Some?
    ensures var sig := MatchSignature(line).value;
      && IsWord(sig.name) && OccursAt(line, DefPrefix + sig.name + CtxParam, 0)
      && MatchTail(line[|DefPrefix + sig.name + CtxParam|..]) == Some(sig.params)
      && '\n' !in sig.params
      && (if sig.params == "" then "" else ", " + sig.params) + ReturnsDict
        <= line[|DefPrefix + sig.name + CtxParam|..]
  {
  }

  /** A tail that starts with the optional group and `) -> dict:` matches, with at least the given parameters. */
  lemma MatchTailComplete(params: string, tail: string)
    requires '\n' !in params
    requires (if params == "" then "" else ", " + params) + ReturnsDict <= tail
    ensures MatchTail(tail).Some? && params <= MatchTail(tail).value
  {
    if params != "" {
      PrefixOccurs(", " + params + ReturnsDict, tail);
      OccursSplit(tail, ", " + params, ReturnsDict, 0);
      OccursSplit(tail, ", ", params, 0);
      var m0 := 2 + |params|;
      assert tail[..2] == ", ";
      assert tail[2..m0] == params;
      var hi := NewlineLimit(tail);
      assert forall k :: 2 <= k < m0 ==> tail[k] != '\n' by {
        forall k | 2 <= k < m0 ensures tail[k] != '\n' {
          assert tail[k] == params[k - 2];
        }
      }
      assert m0 <= hi;
      var m := LastReturnsDict(tail, 3, hi);
      assert m >= m0;
      assert tail[2..m][..|params|] == params;
    } else {
      assert tail[0] == ')';
    }
  }

  /** A line starting `async def NAME(ctx: Context` with a word NAME yields exactly that name's length. */
  lemma HeadNameOf(name: string, line: string)
    requires IsWord(name) && OccursAt(line, DefPrefix + name + CtxParam, 0)
    ensures HeadName(line) == |name|
  {
    var n := |name|;
    var p := |DefPrefix|;
    OccursSplit(line, DefPrefix + name, CtxParam, 0);
    OccursSplit(line, DefPrefix, name, 0);
    PrefixOccurs(DefPrefix, line);
    assert line[p + n] == '(' by {
      assert line[p + n..p + n + |CtxParam|][0] == line[p + n];
    }
    WordRunAt(line, name, p);
    PrefixOccurs(CtxParam, line[p + n..]) by {
      OccursInSuffix(line, CtxParam, p + n, 0);
    }
  }

  /**
   * A line that starts with the signature text of a word name matches, with that name; since `(.+)` is greedy,
   * the matched parameters extend the given ones.
   */
  lemma MatchSignatureComplete(sig: Signature, line: string)
    requires IsWord(sig.name) && '\n' !in sig.params
    requires SignatureText(sig) <= line
    ensures MatchSignature(line).Some?
    ensures MatchSignature(line).value.name == sig.name
    ensures sig.params <= MatchSignature(line).value.params
  {
    var t0 := |DefPrefix| + |sig.name| + |CtxParam|;
    SignatureParts(sig, line);
    MatchTailComplete(sig.params, line[t0..]);
    MatchSignatureOf(line, |sig.name|, MatchTail(line[t0..]).value);
  }

  /** A line starting with the signature text of a word name has that name, and the rest of the text after it. */
  lemma SignatureParts(sig: Signature, line: string)
    requires IsWord(sig.name) && SignatureText(sig) <= line
    ensures HeadName(line) == |sig.name|
    ensures line[|DefPrefix|..|DefPrefix| + |sig.name|] == sig.name
    ensures (if sig.params == "" then "" else ", " + sig.params) + ReturnsDict
      <= line[|DefPrefix| + |sig.name| + |CtxParam|..]
  {
    var opt := if sig.params == "" then "" else ", " + sig.params;
    var head := DefPrefix + sig.name + CtxParam;
    assert SignatureText(sig) == head + (opt + ReturnsDict);
    PrefixConcat(line, head, opt + ReturnsDict);
    PrefixOccurs(head, line);
    HeadNameOf(sig.name, line);
    OccursSplit(line, DefPrefix + sig.name, CtxParam, 0);
    OccursSplit(line, DefPrefix, sig.name, 0);
  }

  /** A tail that starts with `) -> dict:` matches with the optional group absent. */
  lemma MatchTailNoParams(tail: string)
    requires ReturnsDict <= tail
    ensures MatchTail(tail) == Some("")
  {
    assert tail[0] == ')';
    assert !(tail[..2] == ", ") by {
      assert tail[..2][0] == ')';
    }
  }

  /** The signature match read off from the length of its name and the match of the tail. */
  lemma MatchSignatureOf(line: string, w: nat, params: string)
    requires w > 0 && HeadName(line) == w
    requires MatchTail(line[|DefPrefix| + w + |CtxParam|..]) == Some(params)
    ensures MatchSignature(line) == Some(Signature(line[|DefPrefix|..|DefPrefix| + w], params))
  {
  }

  /** A signature with nothing after `ctx: Context` matches with the optional group absent. */
  lemma MatchSignatureNoParams(name: string, line: string)
    requires IsWord(name) && SignatureText(Signature(name, "")) <= line
    ensures MatchSignature(line) == Some(Signature(name, ""))
  {
    SignatureParts(Signature(name, ""), line);
    MatchTailNoParams(line[|DefPrefix| + |name| + |CtxParam|..]);
    MatchSignatureOf(line, |name|, "");
  }

  /** The two `\w+` groups of a matched drone command: plugin and command. */
  datatype Command = Command(plugin: string, name: string)

  const AwaitDrone := "await drone."

  /** The text a command match starts with: `await drone.PLUGIN.COMMAND(`. */
  function CommandText(cmd: Command): string {
    AwaitDrone + cmd.plugin + "." + cmd.name + "("
  }

  /** `(.*?)\)` tried at index `c`: some `)` comes before any newline. */
  predicate ClosesFrom(line: string, c: nat)
    decreases |line| - c
  {
    c < |line| && line[c] != '\n' && (line[c] == ')' || ClosesFrom(line, c + 1))
  }

  /** The command pattern tried at index `k` of the line. */
  function CommandAt(line: string, k: nat): Option<Command>
    requires k <= |line|
  {
    if OccursAt(line, AwaitDrone, k) then CommandFrom(line, k + |AwaitDrone|) else None
  }

  /** What follows `await drone.`: `(\w+)\.` and then the command name, tried at index `a`. */
  function CommandFrom(line: string, a: nat): Option<Command>
    requires a <= |line|
  {
    var w := WordRun(line, a);
    if w == 0 || a + w == |line| || line[a + w] != '.' then None
    else match NameFrom(line, a + w + 1)
      case None => None
      case Some(name) => Some(Command(line[a..a + w], name))
  }

  /** `(\w+)\((.*?)\)` tried at index `b`: the command name, when its call closes on the same line. */
  function NameFrom(line: string, b: nat): Option<string>
    requires b <= |line|
  {
    var w := WordRun(line, b);
    if w == 0 || b + w == |line| || line[b + w] != '(' then None
    else if ClosesFrom(line, b + w + 1) then Some(line[b..b + w])
    else None
  }

  /** A matched command name is a word found at `b` and followed by `(`. */
  lemma NameFromSound(line: string, b: nat)
    requires b <= |line| && NameFrom(line, b).Some?
    ensures var name := NameFrom(line, b).value;
      IsWord(name) && OccursAt(line, name + "(", b)
  {
    var name := NameFrom(line, b).value;
    WordRunIsWord(line, b);
    CharOccurs(line, b + |name|);
    OccursConcat(line, name, "(", b);
  }

  /** A matched plugin and command are words, found at `a` as `PLUGIN.COMMAND(`. */
  lemma CommandFromSound(line: string, a: nat)
    requires a <= |line| && CommandFrom(line, a).Some?
    ensures var cmd := CommandFrom(line, a).value;
      IsWord(cmd.plugin) && IsWord(cmd.name) && OccursAt(line, cmd.plugin + "." + cmd.name + "(", a)
  {
    var cmd := CommandFrom(line, a).value;
    CommandFromParts(line, a);
    NameFromSound(line, a + |cmd.plugin| + 1);
    DottedCall(line, a, cmd.plugin, cmd.name);
  }

  /** The pieces a command match is read from: the plugin word, the `.` after it, and the command name. */
  lemma CommandFromParts(line: string, a: nat)
    requires a <= |line| && CommandFrom(line, a).Some?
    ensures var cmd := CommandFrom(line, a).value;
      && IsWord(cmd.plugin) && OccursAt(line, cmd.plugin, a)
      && a + |cmd.plugin| < |line| && line[a + |cmd.plugin|] == '.'
      && NameFrom(line, a + |cmd.plugin| + 1) == Some(cmd.name)
  {
    WordRunIsWord(line, a);
  }

  /** `PLUGIN` at `a`, a `.` after it and `NAME(` after that form `PLUGIN.NAME(` at `a`. */
  lemma DottedCall(line: string, a: nat, plugin: string, name: string)
    requires OccursAt(line, plugin, a) && a + |plugin| < |line| && line[a + |plugin|] == '.'
    requires OccursAt(line, name + "(", a + |plugin| + 1)
    ensures OccursAt(line, plugin + "." + name + "(", a)
  {
    CharOccurs(line, a + |plugin|);
    OccursConcat(line, plugin, ".", a);
    OccursConcat(line, plugin + ".", name + "(", a);
    assert plugin + "." + (name + "(") == plugin + "." + name + "(";
  }

  /** A command match names two words and the line continues with its command text there. */
  lemma CommandAtSound(line: string, k: nat)
    requires k <= |line| && CommandAt(line, k).Some?
    ensures var cmd := CommandAt(line, k).value;
      IsWord(cmd.plugin) && IsWord(cmd.name) && CommandText(cmd) <= line[k..]
  {
    var a := k + |AwaitDrone|;
    assert CommandAt(line, k) == CommandFrom(line, a);
    var cmd := CommandFrom(line, a).value;
    var rest := cmd.plugin + "." + cmd.name + "(";
    CommandFromSound(line, a);
    OccursConcat(line, AwaitDrone, rest, k);
    assert CommandText(cmd) == AwaitDrone + rest;
    OccursInSuffix(line, CommandText(cmd), k, 0);
    PrefixOccurs(CommandText(cmd), line[k..]);
  }

  /** What a greedy `\w+` consumes from `a`, when it consumes anything, is a word. */
  lemma WordRunIsWord(s: string, a: nat)
    requires a <= |s| && WordRun(s, a) > 0
    ensures IsWord(s[a..a + WordRun(s, a)])
  {
    var n := WordRun(s, a);
    WordRunSpan(s, a);
    var w := s[a..a + n];
    forall j | 0 <= j < n ensures IsWordChar(w[j]) {
      assert w[j] == s[a + j];
    }
  }

  /** The pieces of a command text found at `k`, each at its own index. */
  lemma CommandTextParts(line: string, k: nat, cmd: Command)
    requires OccursAt(line, CommandText(cmd), k)
    ensures OccursAt(line, AwaitDrone, k)
    ensures OccursAt(line, cmd.plugin, k + |AwaitDrone|)
    ensures line[k + |AwaitDrone| + |cmd.plugin|] == '.'
    ensures OccursAt(line, cmd.name, k + |AwaitDrone| + |cmd.plugin| + 1)
    ensures line[k + |AwaitDrone| + |cmd.plugin| + 1 + |cmd.name|] == '('
    ensures k + |CommandText(cmd)| == k + |AwaitDrone| + |cmd.plugin| + 1 + |cmd.name| + 1
  {
    var a := k + |AwaitDrone|;
    var b := a + |cmd.plugin| + 1;
    OccursSplit(line, AwaitDrone + cmd.plugin + "." + cmd.name, "(", k);
    OccursSplit(line, AwaitDrone + cmd.plugin + ".", cmd.name, k);
    OccursSplit(line, AwaitDrone + cmd.plugin, ".", k);
    OccursSplit(line, AwaitDrone, cmd.plugin, k);
    assert line[a + |cmd.plugin|..b] == ".";
    assert line[b + |cmd.name|..b + |cmd.name| + 1] == "(";
  }

  /** A word at `b` followed by `(` and a call that closes on the line is matched as the command name. */
  lemma NameFromOfWord(line: string, b: nat, name: string)
    requires IsWord(name) && OccursAt(line, name, b)
    requires b + |name| < |line| && line[b + |name|] == '(' && ClosesFrom(line, b + |name| + 1)
    ensures NameFrom(line, b) == Some(name)
  {
    WordRunAt(line, name, b);
  }

  /** A word at `a`, a `.`, and a word followed by a call that closes on the line, are matched as plugin and command. */
  lemma CommandFromOfWord(line: string, a: nat, plugin: string, name: string)
    requires IsWord(plugin) && OccursAt(line, plugin, a)
    requires a + |plugin| < |line| && line[a + |plugin|] == '.'
    requires IsWord(name) && OccursAt(line, name, a + |plugin| + 1)
    requires a + |plugin| + 1 + |name| < |line| && line[a + |plugin| + 1 + |name|] == '('
    requires ClosesFrom(line, a + |plugin| + 1 + |name| + 1)
    ensures CommandFrom(line, a) == Some(Command(plugin, name))
  {
    NameFromOfWord(line, a + |plugin| + 1, name);
    WordRunAt(line, plugin, a);
    assert line[a..a + |plugin|] == plugin;
  }

  /** One-line arguments and a `)` from index `c` satisfy the lazy `(.*?)\)` there. */
  lemma {:induction false} ClosesAfter(line: string, c: nat, args: string)
    requires '\n' !in args && OccursAt(line, args + ")", c)
    ensures ClosesFrom(line, c)
    decreases |args|
  {
    var t := args + ")";
    assert line[c] == t[0] by {
      assert line[c..c + |t|][0] == line[c];
    }
    if |args| > 0 && args[0] != ')' {
      assert line[c + 1..c + |t|] == t[1..] == args[1..] + ")" by {
        assert line[c..c + |t|][1..] == line[c + 1..c + |t|];
      }
      ClosesAfter(line, c + 1, args[1..]);
    }
  }

  /** Command text with word names, followed on its line by a `)`, matches at that index with exactly those names. */
  lemma CommandAtOfText(line: string, k: nat, cmd: Command)
    requires IsWord(cmd.plugin) && IsWord(cmd.name)
    requires OccursAt(line, CommandText(cmd), k)
    requires ClosesFrom(line, k + |CommandText(cmd)|)
    ensures CommandAt(line, k) == Some(cmd)
  {
    CommandTextParts(line, k, cmd);
    CommandFromOfWord(line, k + |AwaitDrone|, cmd.plugin, cmd.name);
  }

  /** `await drone.P.C(ARGS)` with word names and one-line arguments matches at that index with exactly P and C. */
  lemma CommandAtComplete(line: string, k: nat, cmd: Command, args: string)
    requires IsWord(cmd.plugin) && IsWord(cmd.name) && '\n' !in args
    requires OccursAt(line, CommandText(cmd) + args + ")", k)
    ensures CommandAt(line, k) == Some(cmd)
  {
    OccursSplit(line, CommandText(cmd), args + ")", k);
    ClosesAfter(line, k + |CommandText(cmd)|, args);
    CommandAtOfText(line, k, cmd);
  }

  /** The leftmost index at or after `k` where the command pattern matches, or -1. */
  function FirstCommandIndex(line: string, k: nat): (p: int)
    requires k <= |line|
    decreases |line| - k
    ensures p == -1 || (k <= p <= |line| && CommandAt(line, p).Some?)
    ensures p == -1 ==> forall q :: k <= q <= |line| ==> CommandAt(line, q).None?
    ensures p != -1 ==> forall q :: k <= q < p ==> CommandAt(line, q).None?
  {
    if CommandAt(line, k).Some? then k
    else if k == |line| then -1
    else FirstCommandIndex(line, k + 1)
  }

  /** `re.search` of the command pattern: the leftmost match in the line. */
  function SearchCommand(line: string): (r: Option<Command>)
    ensures r.None? <==> forall q :: 0 <= q <= |line| ==> CommandAt(line, q).None?
    ensures r.Some? ==> IsWord(r.value.plugin) && IsWord(r.value.name)
  {
    var p := FirstCommandIndex(line, 0);
    if p == -1 then None
    else
      CommandAtSound(line, p);
      CommandAt(line, p)
  }
}
