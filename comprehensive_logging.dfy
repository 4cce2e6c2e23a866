/**
 * The rewriting pass of add_comprehensive_logging.py over the lines of the server module: a
 * `log_tool_call(...)` line before the first code line of every `@mcp.tool()` function, and a
 * `log_mavlink_command(...)` line before every `await drone.action.` call not already logged.
 * Reading and writing the file and printing the summary are not modelled: the pass takes the
 * lines (each with its line terminator, as `readlines` yields them) and returns the new lines
 * and the change messages.
 */
module ComprehensiveLogging {
  import opened Wrappers
  import opened Text
  import opened Patterns

  const ToolDecorator := "@mcp.tool()"
  const ToolCallMarker := "log_tool_call"
  const CommandMarker := "log_mavlink_command"
  const ActionCall := "await drone.action."
  const ToolCallOpen := "log_tool_call("
  const CommandOpen := "log_mavlink_command("

  /**
   * A line that is the tool decorator once surrounding whitespace is stripped. A log line never is,
   * so a line the pass inserts never starts another tool.
   */
  predicate IsToolDecorator(line: string)
    ensures IsLogLine(line) ==> !IsToolDecorator(line)
  {
    var lw := LeadingWs(line);
    assert IsLogLine(line) ==> line[lw] == 'l' && Strip(line)[0] == line[lw];
    assert ToolDecorator[0] == '@';
    Strip(line) == ToolDecorator
  }

  /**
   * A line the search for a tool's first code line steps over: blank, a docstring delimiter, or a comment.
   * A log line is never stepped over, so the search stops at a tool-call line the pass inserted earlier.
   */
  predicate Skippable(line: string)
    ensures IsLogLine(line) ==> !Skippable(line)
  {
    var stripped := Strip(line);
    var lw := LeadingWs(line);
    assert IsLogLine(line) ==> line[lw] == 'l' && stripped[0] == line[lw];
    || "\"\"\"" <= stripped
    || stripped == "\"\"\""
    || stripped == ""
    || "#" <= stripped
  }

  /** The first index at or after `from` holding a line that is not skippable, or `|lines|`. */
  function FirstCodeLine(lines: seq<string>, from: nat): (j: nat)
    requires from <= |lines|
    decreases |lines| - from
    ensures from <= j <= |lines|
    ensures j < |lines| ==> !Skippable(lines[j])
  {
    if from == |lines| || !Skippable(lines[from]) then from else FirstCodeLine(lines, from + 1)
  }

  /** Every line the search steps over on its way to the first code line is skippable. */
  lemma {:induction false} FirstCodeLineSkips(lines: seq<string>, from: nat)
    requires from <= |lines|
    ensures forall k :: from <= k < FirstCodeLine(lines, from) ==> Skippable(lines[k])
    decreases |lines| - from
  {
    if from < |lines| && Skippable(lines[from]) {
      FirstCodeLineSkips(lines, from + 1);
    }
  }

  // ---------------------------------------------------------------------------------------------
  // Parameter names for the tool-call log line

  /** The name of one comma-separated parameter: text before any `=`, then before any `:`, stripped. */
  /** It never carries the `:` of an annotation or the `=` of a default. */
  function ParamName(piece: string): (name: string)
    ensures ':' !in name && '=' !in name
  {
    var param := Strip(piece);
    if '=' in param then
      var b := BeforeChar(param, '=');
      StripKeepsOut(b, '=');
      var c := BeforeChar(Strip(b), ':');
      assert '=' !in c;
      StripKeepsOut(c, ':');
      StripKeepsOut(c, '=');
      Strip(c)
    else
      var c := BeforeChar(param, ':');
      assert '=' !in c;
      StripKeepsOut(c, ':');
      StripKeepsOut(c, '=');
      Strip(c)
  }

  /** `s` begins with the word `n`, followed by `c` or by nothing. */
  predicate WordThen(s: string, n: string, c: char) {
    IsWord(n) && n <= s && (|s| > |n| ==> s[|n|] == c)
  }

  /** Stripping an indented text that begins with a word keeps the word, and what follows it. */
  lemma StripWordThen(k: nat, s: string, n: string, c: char)
    requires WordThen(s, n, c) && !IsSpace(c)
    ensures WordThen(Strip(Spaces(k) + s), n, c)
  {
    var t := Spaces(k) + s;
    assert s[0] == n[0];
    LeadingWsOfIndented(k, s);
    var r := Strip(t);
    assert r == s[..|r|];
    assert t[k + |n| - 1] == n[|n| - 1] && !IsSpace(n[|n| - 1]);
    if |s| > |n| {
      assert t[k + |n|] == c;
    }
    assert r[..|n|] == s[..|n|];
  }

  /** Cutting a word-led text at a character the word lacks keeps the word and what follows it. */
  lemma BeforeCharWordThen(s: string, n: string, c: char, d: char)
    requires WordThen(s, n, c) && d !in n
    ensures WordThen(BeforeChar(s, d), n, c)
  {
    var b := BeforeChar(s, d);
    assert forall j :: 0 <= j < |n| ==> s[j] == n[j];
    assert b[..|n|] == s[..|n|];
  }

  /** Cutting a word-led text at the character after the word leaves the word alone. */
  lemma BeforeCharAtWord(s: string, n: string, c: char)
    requires WordThen(s, n, c) && c !in n
    ensures BeforeChar(s, c) == n
  {
    BeforeCharWordThen(s, n, c, c);
    var b := BeforeChar(s, c);
    assert b == n[..|b|];
  }

  /** A word has no whitespace to strip. */
  lemma StripWord(n: string)
    requires IsWord(n)
    ensures Strip(n) == n
  {
    assert WordThen(n, n, ':');
    StripWordThen(0, n, n, ':');
    assert Spaces(0) + n == n;
  }

  /** Cutting a stripped parameter that begins with a word followed by `:` or nothing gives that word. */
  lemma CutParamOfWord(param: string, n: string)
    requires WordThen(param, n, ':')
    ensures '=' in param ==> Strip(BeforeChar(Strip(BeforeChar(param, '=')), ':')) == n
    ensures '=' !in param ==> Strip(BeforeChar(param, ':')) == n
  {
    assert !IsWordChar(':') && !IsWordChar('=');
    assert ':' !in n && '=' !in n;
    StripWord(n);
    if '=' in param {
      CutDefaultOfWord(param, n);
    } else {
      BeforeCharAtWord(param, n, ':');
    }
  }

  /** Cutting at `=`, stripping and cutting at `:` a parameter that begins with a word leaves the word. */
  lemma CutDefaultOfWord(param: string, n: string)
    requires WordThen(param, n, ':') && ':' !in n && '=' !in n
    ensures BeforeChar(Strip(BeforeChar(param, '=')), ':') == n
  {
    assert !IsSpace(':');
    BeforeCharWordThen(param, n, ':', '=');
    var b := BeforeChar(param, '=');
    StripWordThen(0, b, n, ':');
    assert Spaces(0) + b == b;
    BeforeCharAtWord(Strip(b), n, ':');
  }

  /** A parameter written `name`, `name: type` or `name: type = default` (after any indentation) is named `name`. */
  lemma ParamNameOfWord(k: nat, n: string, rest: string)
    requires IsWord(n) && (rest == "" || rest[0] == ':')
    ensures ParamName(Spaces(k) + n + rest) == n
  {
    var piece := Spaces(k) + (n + rest);
    assert Spaces(k) + n + rest == piece;
    assert WordThen(n + rest, n, ':') by {
      assert (n + rest)[..|n|] == n;
    }
    assert !IsSpace(':');
    StripWordThen(k, n + rest, n, ':');
    CutParamOfWord(Strip(piece), n);
  }

  /** The names `params.split(',')` yields, in order, leaving out `ctx`: at most one per piece, each clean. */
  function ParamNames(pieces: seq<string>): (names: seq<string>)
    decreases |pieces|
    ensures |names| <= |pieces|
    ensures forall k :: 0 <= k < |names| ==> CleanName(names[k])
  {
    if |pieces| == 0 then []
    else
      var init := ParamNames(pieces[..|pieces| - 1]);
      var name := ParamName(pieces[|pieces| - 1]);
      if name != "ctx" then init + [name] else init
  }

  /** A name that may be passed on: not `ctx`, and free of the `:` of an annotation and the `=` of a default. */
  predicate CleanName(name: string) {
    name != "ctx" && ':' !in name && '=' !in name
  }

  /** The `name=name` keyword arguments passed on to `log_tool_call`. */
  function Entries(names: seq<string>): (entries: seq<string>)
    ensures |entries| == |names|
  {
    seq(|names|, k requires 0 <= k < |names| => names[k] + "=" + names[k])
  }

  /** The keyword arguments for a tool's parameter group; none when the group is absent. */
  function ParamList(params: string): (entries: seq<string>)
    ensures params == "" ==> entries == []
    ensures |entries| <= |Split(params, ',')|
  {
    if params == "" then [] else Entries(ParamNames(Split(params, ',')))
  }

  /**
   * A parameter group written as pieces joined by commas, none of which holds a comma itself, is
   * passed on as the `name=name` arguments of those pieces' names, in order.
   */
  lemma ParamListOfPieces(pieces: seq<string>)
    requires |pieces| >= 1 && forall k :: 0 <= k < |pieces| ==> ',' !in pieces[k]
    requires Join(pieces, ",") != ""
    ensures ParamList(Join(pieces, ",")) == Entries(ParamNames(pieces))
  {
    SplitJoin(pieces, ',');
  }

  lemma EntriesSnoc(names: seq<string>, n: string)
    ensures Entries(names + [n]) == Entries(names) + [n + "=" + n]
  {
  }

  /** One more piece adds its name, unless the name is `ctx`. */
  lemma ParamNamesStep(pieces: seq<string>, k: nat)
    requires k < |pieces|
    ensures var name := ParamName(pieces[k]);
      ParamNames(pieces[..k + 1]) == if name != "ctx" then ParamNames(pieces[..k]) + [name] else ParamNames(pieces[..k])
  {
    assert pieces[..k + 1][..k] == pieces[..k];
  }

  /** The loop that builds the keyword-argument list. */
  method BuildParamList(params: string) returns (paramList: seq<string>)
    ensures paramList == ParamList(params)
  {
    paramList := [];
    if params != "" {
      var pieces := Split(params, ',');
      for k := 0 to |pieces|
        invariant paramList == Entries(ParamNames(pieces[..k]))
      {
        paramList := AddParam(paramList, pieces, k);
      }
      assert pieces[..|pieces|] == pieces;
    }
  }

  /** One turn of the loop: the name of piece `k` is added as `name=name`, unless it is `ctx`. */
  method AddParam(paramList: seq<string>, pieces: seq<string>, k: nat) returns (paramList': seq<string>)
    requires k < |pieces| && paramList == Entries(ParamNames(pieces[..k]))
    ensures paramList' == Entries(ParamNames(pieces[..k + 1]))
  {
    var name := ParamName(pieces[k]);
    ParamNamesStep(pieces, k);
    paramList' := paramList;
    if name != "ctx" {
      EntriesSnoc(ParamNames(pieces[..k]), name);
      paramList' := paramList + [name + "=" + name];
    }
  }

  // ---------------------------------------------------------------------------------------------
  // The two kinds of inserted line

  /** The text after the indentation of a tool-call log line. */
  function ToolCallText(name: string, entries: seq<string>): string {
    ToolCallOpen + "\"" + name + "\"" + (if entries == [] then "" else ", " + Join(entries, ", ")) + ")\n"
  }

  /** The tool-call line with its indentation: a log line, indented as asked, ending its line. */
  function ToolCallLine(indent: nat, name: string, entries: seq<string>): (line: string)
    ensures IsLogLine(line) && LeadingWs(line) == indent && line[|line| - 1] == '\n'
  {
    var text := ToolCallText(name, entries);
    assert text[..|ToolCallOpen|] == ToolCallOpen;
    IndentedLogLine(indent, text);
    Spaces(indent) + text
  }

  /** The text after the indentation of a command log line. */
  function CommandLogText(cmd: Command): string {
    CommandOpen + "\"drone." + cmd.plugin + "." + cmd.name + "\")\n"
  }

  /** The command log line with its indentation: a log line, indented as asked, ending its line. */
  function CommandLine(indent: nat, cmd: Command): (line: string)
    ensures IsLogLine(line) && LeadingWs(line) == indent && line[|line| - 1] == '\n'
  {
    var text := CommandLogText(cmd);
    assert text[..|CommandOpen|] == CommandOpen;
    IndentedLogLine(indent, text);
    Spaces(indent) + text
  }

  /** A line whose code, after its indentation, is a call of one of the two logging helpers. */
  predicate IsLogLine(line: string) {
    var code := line[LeadingWs(line)..];
    ToolCallOpen <= code || CommandOpen <= code
  }

  /** An indented call of a logging helper is a log line with exactly that indentation. */
  lemma IndentedLogLine(indent: nat, text: string)
    requires ToolCallOpen <= text || CommandOpen <= text
    ensures IsLogLine(Spaces(indent) + text)
    ensures LeadingWs(Spaces(indent) + text) == indent
  {
    assert text[0] == 'l';
    LeadingWsOfIndented(indent, text);
  }

  // ---------------------------------------------------------------------------------------------
  // One step of the pass

  /** A line to insert, where, and the change message recorded for it. */
  datatype Insertion = Insertion(at: nat, text: string, change: string)

  /**
   * The tool-call line the pass inserts while at index `i`: when `lines[i]` is the decorator and
   * the next line matches the signature pattern, before the first code line after the signature,
   * unless that line already mentions `log_tool_call`. Its indentation is that code line's.
   */
  function ToolInsertion(lines: seq<string>, i: nat): (r: Option<Insertion>)
    requires i < |lines|
    ensures r.Some? ==> i + 2 <= r.value.at < |lines| && !Skippable(lines[r.value.at])
    ensures r.Some? ==> IsLogLine(r.value.text) && LeadingWs(r.value.text) == LeadingWs(lines[r.value.at])
    ensures r.Some? ==> IsToolDecorator(lines[i]) && MatchSignature(lines[i + 1]).Some?
    ensures i + 1 < |lines| && IsToolDecorator(lines[i]) && MatchSignature(lines[i + 1]).Some? ==>
      var j := FirstCodeLine(lines, i + 2);
      (r.None? <==> j == |lines| || Contains(lines[j], ToolCallMarker))
    ensures r.Some? ==>
      var sig := MatchSignature(lines[i + 1]).value;
      var j := FirstCodeLine(lines, i + 2);
      r.value == Insertion(j, ToolCallLine(LeadingWs(lines[j]), sig.name, ParamList(sig.params)),
                           "Added log_tool_call to " + sig.name)
  {
    if !IsToolDecorator(lines[i]) || i + 1 >= |lines| then None
    else match MatchSignature(lines[i + 1])
      case None => None
      case Some(sig) =>
        var j := FirstCodeLine(lines, i + 2);
        if j == |lines| || Contains(lines[j], ToolCallMarker) then None
        else
          var indent := LeadingWs(lines[j]);
          Some(Insertion(j, ToolCallLine(indent, sig.name, ParamList(sig.params)),
                         "Added log_tool_call to " + sig.name))
  }

  /**
   * The guard of the command branch. Python reads `A and B if i > 0 else True` as
   * `(A and B) if i > 0 else True`, so at index 0 the guard holds for any line.
   */
  predicate MavlinkGuard(lines: seq<string>, i: nat)
    requires i < |lines|
    ensures i == 0 ==> MavlinkGuard(lines, i)
  {
    if i > 0 then Contains(lines[i], ActionCall) && !Contains(lines[i - 1], CommandMarker) else true
  }

  /** The command log line the pass inserts before `lines[i]`, for the leftmost command match in it. */
  function CommandInsertion(lines: seq<string>, i: nat): (r: Option<Insertion>)
    requires i < |lines|
    ensures r.Some? ==> r.value.at == i && MavlinkGuard(lines, i) && SearchCommand(lines[i]).Some?
    ensures r.Some? ==> IsLogLine(r.value.text) && LeadingWs(r.value.text) == LeadingWs(lines[i])
    ensures i > 0 ==> (r.Some? <==>
      Contains(lines[i], ActionCall) && !Contains(lines[i - 1], CommandMarker) && SearchCommand(lines[i]).Some?)
    ensures r.Some? ==>
      var cmd := SearchCommand(lines[i]).value;
      r.value == Insertion(i, CommandLine(LeadingWs(lines[i]), cmd), "Added log for drone." + cmd.plugin + "." + cmd.name)
  {
    if !MavlinkGuard(lines, i) then None
    else match SearchCommand(lines[i])
      case None => None
      case Some(cmd) =>
        var indent := LeadingWs(lines[i]);
        Some(Insertion(i, CommandLine(indent, cmd), "Added log for drone." + cmd.plugin + "." + cmd.name))
  }

  /** The tool branch of the loop body, with its inner search for the first code line. */
  method FindToolInsertion(lines: seq<string>, i: nat) returns (ins: Option<Insertion>)
    requires i < |lines|
    ensures ins == ToolInsertion(lines, i)
  {
    ins := None;
    if Strip(lines[i]) == ToolDecorator && i + 1 < |lines| {
      var m := MatchSignature(lines[i + 1]);
      if m.Some? {
        var j := i + 2;
        while j < |lines|
          invariant i + 2 <= j <= |lines|
          invariant FirstCodeLine(lines, i + 2) == FirstCodeLine(lines, j)
          invariant ins == None
        {
          if Skippable(lines[j]) {
            j := j + 1;
            continue;
          }
          if !Contains(lines[j], ToolCallMarker) {
            var indent := LeadingWs(lines[j]);
            var paramList := BuildParamList(m.value.params);
            ins := Some(Insertion(j, ToolCallLine(indent, m.value.name, paramList),
                                  "Added log_tool_call to " + m.value.name));
          }
          break;
        }
      }
    }
  }

  // ---------------------------------------------------------------------------------------------
  // Bookkeeping over inserted lines

  function Insert<T>(s: seq<T>, p: nat, x: T): (r: seq<T>)
    requires p <= |s|
    ensures |r| == |s| + 1
  {
    s[..p] + [x] + s[p..]
  }

  /** The lines not marked as inserted, in order. */
  function Kept(lines: seq<string>, isNew: seq<bool>): seq<string>
    requires |lines| == |isNew|
    decreases |lines|
  {
    if |lines| == 0 then []
    else (if isNew[0] then [] else [lines[0]]) + Kept(lines[1..], isNew[1..])
  }

  function CountNew(isNew: seq<bool>): nat
    decreases |isNew|
  {
    if |isNew| == 0 then 0 else (if isNew[0] then 1 else 0) + CountNew(isNew[1..])
  }

  /** The number of original (not inserted) lines. */
  function Originals(isNew: seq<bool>): nat
    decreases |isNew|
  {
    if |isNew| == 0 then 0 else (if isNew[0] then 0 else 1) + Originals(isNew[1..])
  }

  /** Inserting a line marked as new leaves the original lines as they were. */
  lemma {:induction false} InsertKept(lines: seq<string>, isNew: seq<bool>, p: nat, x: string)
    requires |lines| == |isNew| && p <= |lines|
    ensures Kept(Insert(lines, p, x), Insert(isNew, p, true)) == Kept(lines, isNew)
    decreases p
  {
    var l2, n2 := Insert(lines, p, x), Insert(isNew, p, true);
    if p == 0 {
      assert l2[1..] == lines && n2[1..] == isNew && n2[0];
    } else {
      assert l2[1..] == Insert(lines[1..], p - 1, x) && n2[1..] == Insert(isNew[1..], p - 1, true);
      assert l2[0] == lines[0] && n2[0] == isNew[0];
      InsertKept(lines[1..], isNew[1..], p - 1, x);
    }
  }

  /** Inserting a line marked as new adds one new line and no original one. */
  lemma {:induction false} InsertCounts(isNew: seq<bool>, p: nat)
    requires p <= |isNew|
    ensures CountNew(Insert(isNew, p, true)) == CountNew(isNew) + 1
    ensures Originals(Insert(isNew, p, true)) == Originals(isNew)
    decreases p
  {
    var n2 := Insert(isNew, p, true);
    if p == 0 {
      assert n2[1..] == isNew && n2[0];
    } else {
      assert n2[1..] == Insert(isNew[1..], p - 1, true) && n2[0] == isNew[0];
      InsertCounts(isNew[1..], p - 1);
    }
  }

  /** Every inserted line is a log line with the indentation of the line right after it. */
  predicate WellFormed(lines: seq<string>, isNew: seq<bool>) {
    && |lines| == |isNew|
    && forall q :: 0 <= q < |lines| && isNew[q] ==>
         q + 1 < |lines| && IsLogLine(lines[q]) && LeadingWs(lines[q]) == LeadingWs(lines[q + 1])
  }

  /** Inserting a log line with the indentation of the line it goes before keeps the lines well formed. */
  lemma InsertKeepsWellFormed(lines: seq<string>, isNew: seq<bool>, p: nat, x: string)
    requires WellFormed(lines, isNew) && p < |lines|
    requires IsLogLine(x) && LeadingWs(x) == LeadingWs(lines[p])
    ensures WellFormed(Insert(lines, p, x), Insert(isNew, p, true))
  {
    var l2 := Insert(lines, p, x);
    var n2 := Insert(isNew, p, true);
    forall q | 0 <= q < |l2| && n2[q]
      ensures q + 1 < |l2| && IsLogLine(l2[q]) && LeadingWs(l2[q]) == LeadingWs(l2[q + 1])
    {
      InsertedAt(lines, isNew, p, x, q);
    }
  }

  /** Index `q` after the insertion: the inserted line itself, or an original index shifted by at most one. */
  lemma InsertedAt(lines: seq<string>, isNew: seq<bool>, p: nat, x: string, q: nat)
    requires WellFormed(lines, isNew) && p < |lines|
    requires IsLogLine(x) && LeadingWs(x) == LeadingWs(lines[p])
    requires q < |lines| + 1 && Insert(isNew, p, true)[q]
    ensures var l2 := Insert(lines, p, x);
      q + 1 < |l2| && IsLogLine(l2[q]) && LeadingWs(l2[q]) == LeadingWs(l2[q + 1])
  {
    var l2 := Insert(lines, p, x);
    var n2 := Insert(isNew, p, true);
    if q < p {
      assert n2[q] == isNew[q] && l2[q] == lines[q] && l2[q + 1] == (if q + 1 == p then x else lines[q + 1]);
    } else if q > p {
      assert n2[q] == isNew[q - 1] && l2[q] == lines[q - 1] && l2[q + 1] == lines[q];
    } else {
      assert l2[q] == x && l2[q + 1] == lines[p];
    }
  }

  /** The number of original lines from index `i` on drops by one when index `i` holds one. */
  lemma OriginalsFrom(isNew: seq<bool>, i: nat)
    requires i < |isNew|
    ensures Originals(isNew[i..]) == (if isNew[i] then 0 else 1) + Originals(isNew[i + 1..])
  {
    assert isNew[i..][1..] == isNew[i + 1..];
  }

  /**
   * Inserting a log line, indented like the line it goes before, keeps every invariant of the pass:
   * the original lines, one more new line, well-formedness, and no original line added from `i` on.
   */
  lemma InsertStep(lines: seq<string>, isNew: seq<bool>, p: nat, x: string, i: nat)
    requires WellFormed(lines, isNew) && i <= p < |lines|
    requires IsLogLine(x) && LeadingWs(x) == LeadingWs(lines[p])
    ensures var l2, n2 := Insert(lines, p, x), Insert(isNew, p, true);
      && WellFormed(l2, n2)
      && Kept(l2, n2) == Kept(lines, isNew)
      && CountNew(n2) == CountNew(isNew) + 1
      && Originals(n2[i..]) == Originals(isNew[i..])
      && n2[..p] == isNew[..p] && n2[p + 1..] == isNew[p..]
  {
    InsertKept(lines, isNew, p, x);
    InsertCounts(isNew, p);
    InsertKeepsWellFormed(lines, isNew, p, x);
    InsertMarks(isNew, p, i);
  }

  /** A mark inserted at `p` adds no original line from any `i <= p` on, and leaves the other marks in place. */
  lemma InsertMarks(isNew: seq<bool>, p: nat, i: nat)
    requires i <= p <= |isNew|
    ensures var n2 := Insert(isNew, p, true);
      && Originals(n2[i..]) == Originals(isNew[i..])
      && n2[..p] == isNew[..p] && n2[p + 1..] == isNew[p..]
  {
    assert Insert(isNew, p, true)[i..] == Insert(isNew[i..], p - i, true);
    InsertCounts(isNew[i..], p - i);
  }

  // ---------------------------------------------------------------------------------------------
  // The pass

  /** The lines after an insertion, if there is one. */
  function ApplyLines(lines: seq<string>, ins: Option<Insertion>): seq<string>
    requires ins.Some? ==> ins.value.at <= |lines|
  {
    if ins.Some? then Insert(lines, ins.value.at, ins.value.text) else lines
  }

  /** The change messages after an insertion, if there is one. */
  function Logged(changes: seq<string>, ins: Option<Insertion>): seq<string> {
    if ins.Some? then changes + [ins.value.change] else changes
  }

  /**
   * A tool log line is never inserted at a decorator that is itself an inserted line, and inserting it
   * keeps the invariants of the pass, leaving the decorator's line and every original line after it alone.
   */
  lemma ToolStep(lines: seq<string>, isNew: seq<bool>, i: nat)
    requires i < |lines| && WellFormed(lines, isNew) && ToolInsertion(lines, i).Some?
    ensures var ins := ToolInsertion(lines, i).value;
      var l2, n2 := Insert(lines, ins.at, ins.text), Insert(isNew, ins.at, true);
      && !isNew[i]
      && WellFormed(l2, n2) && Kept(l2, n2) == Kept(lines, isNew) && CountNew(n2) == CountNew(isNew) + 1
      && n2[i] == isNew[i] && Originals(n2[i + 1..]) == Originals(isNew[i + 1..])
  {
    var ins := ToolInsertion(lines, i).value;
    DecoratorIsOriginal(lines, isNew, i);
    InsertStep(lines, isNew, ins.at, ins.text, i + 1);
  }

  /** In well-formed lines, a tool decorator is an original line. */
  lemma DecoratorIsOriginal(lines: seq<string>, isNew: seq<bool>, i: nat)
    requires i < |lines| && WellFormed(lines, isNew) && IsToolDecorator(lines[i])
    ensures !isNew[i]
  {
  }

  /** The tool branch of one turn of the loop at index `i`. */
  method ToolStage(lines: seq<string>, changesMade: seq<string>, ghost isNew: seq<bool>, i: nat)
    returns (lines': seq<string>, changesMade': seq<string>, ghost isNew': seq<bool>)
    requires i < |lines| && WellFormed(lines, isNew)
    ensures lines' == ApplyLines(lines, ToolInsertion(lines, i))
    ensures changesMade' == Logged(changesMade, ToolInsertion(lines, i))
    ensures WellFormed(lines', isNew') && Kept(lines', isNew') == Kept(lines, isNew)
    ensures CountNew(isNew') - CountNew(isNew) == |changesMade'| - |changesMade| == |lines'| - |lines|
    ensures isNew'[i] == isNew[i] && Originals(isNew'[i + 1..]) == Originals(isNew[i + 1..])
    ensures isNew[i] ==> lines' == lines
  {
    lines', changesMade', isNew' := lines, changesMade, isNew;
    var tool := FindToolInsertion(lines, i);
    if tool.Some? {
      var ins := tool.value;
      ToolStep(lines, isNew, i);
      lines' := Insert(lines, ins.at, ins.text);
      isNew' := Insert(isNew, ins.at, true);
      changesMade' := changesMade + [ins.change];
    }
  }

  /** The command branch of one turn of the loop at index `i`, which also moves past the line. */
  method CommandStage(lines: seq<string>, changesMade: seq<string>, ghost isNew: seq<bool>, i: nat)
    returns (lines': seq<string>, changesMade': seq<string>, ghost isNew': seq<bool>, i': nat)
    requires i < |lines| && WellFormed(lines, isNew)
    ensures lines' == ApplyLines(lines, CommandInsertion(lines, i))
    ensures changesMade' == Logged(changesMade, CommandInsertion(lines, i))
    ensures i' == if CommandInsertion(lines, i).Some? then i + 2 else i + 1
    ensures WellFormed(lines', isNew') && Kept(lines', isNew') == Kept(lines, isNew)
    ensures CountNew(isNew') - CountNew(isNew) == |changesMade'| - |changesMade| == |lines'| - |lines|
    ensures i' <= |lines'| && |lines'| - i' < |lines| - i
    ensures Originals(isNew'[i'..]) == Originals(isNew[i + 1..])
  {
    lines', changesMade', isNew' := lines, changesMade, isNew;
    i' := i + 1;
    var command := CommandInsertion(lines, i);
    if command.Some? {
      var ins := command.value;
      InsertStep(lines, isNew, i, ins.text, i);
      lines' := Insert(lines, i, ins.text);
      isNew' := Insert(isNew, i, true);
      changesMade' := changesMade + [ins.change];
      i' := i + 2;
    }
  }

  /**
   * The whole rewriting pass. Every original line survives, in order; every inserted line is a
   * log line indented like the line it precedes; and there is one change message per inserted line.
   * `isNew` marks the inserted lines.
   */
  method AddComprehensiveLogging(input: seq<string>) returns (lines: seq<string>, changesMade: seq<string>, ghost isNew: seq<bool>)
    ensures |lines| == |isNew| && |lines| == |input| + |changesMade|
    ensures Kept(lines, isNew) == input
    ensures CountNew(isNew) == |changesMade|
    ensures WellFormed(lines, isNew)
  {
    lines := input;
    changesMade := [];
    isNew := seq(|input|, _ => false);
    KeptAllOriginal(input);
    var i: nat := 0;
    while i < |lines|
      invariant i <= |lines| && |lines| == |isNew| && WellFormed(lines, isNew)
      invariant Kept(lines, isNew) == input && CountNew(isNew) == |changesMade|
      invariant |lines| == |input| + |changesMade|
      decreases Originals(isNew[i..]), |lines| - i
    {
      OriginalsFrom(isNew, i);
      lines, changesMade, isNew := ToolStage(lines, changesMade, isNew, i);
      lines, changesMade, isNew, i := CommandStage(lines, changesMade, isNew, i);
    }
  }

  lemma {:induction false} KeptAllOriginal(input: seq<string>)
    ensures Kept(input, seq(|input|, _ => false)) == input
    ensures CountNew(seq(|input|, _ => false)) == 0
    decreases |input|
  {
    if |input| > 0 {
      assert seq(|input|, _ => false)[1..] == seq(|input| - 1, _ => false);
      KeptAllOriginal(input[1..]);
    }
  }

  // ---------------------------------------------------------------------------------------------
  // Consequences of the guard and the docstring handling

  /**
   * At index 0 the guard is true whatever the line says, so a first line holding a call of any
   * drone plugin gets a command log line, not only an `await drone.action.` call.
   */
  lemma FirstLineAnyCommandLogged(cmd: Command, args: string, rest: seq<string>)
    requires IsWord(cmd.plugin) && IsWord(cmd.name) && '\n' !in args
    ensures var lines := [CommandText(cmd) + args + ")\n"] + rest;
      CommandInsertion(lines, 0)
        == Some(Insertion(0, CommandLine(0, cmd), "Added log for drone." + cmd.plugin + "." + cmd.name))
  {
    CommandLineFound(cmd, args);
  }

  /** A line that is a drone call finds that call and has no indentation. */
  lemma CommandLineFound(cmd: Command, args: string)
    requires IsWord(cmd.plugin) && IsWord(cmd.name) && '\n' !in args
    ensures SearchCommand(CommandText(cmd) + args + ")\n") == Some(cmd)
    ensures LeadingWs(CommandText(cmd) + args + ")\n") == 0
  {
    var line := CommandText(cmd) + args + ")\n";
    assert line == (CommandText(cmd) + args + ")") + "\n";
    PrefixOccurs(CommandText(cmd) + args + ")", line);
    CommandAtComplete(line, 0, cmd, args);
    assert line[0] == 'a';
  }

  /** The lines of a parameterless tool whose docstring opens on a line of its own, up to its first text line. */
  function DocstringListing(name: string, k: nat, text: string): seq<string> {
    [ToolDecorator + "\n", SignatureText(Signature(name, "")) + "\n", Spaces(k) + "\"\"\"\n", Spaces(k) + text + "\n"]
  }

  lemma DocstringListingHead(name: string, k: nat, text: string)
    requires IsWord(name)
    ensures IsToolDecorator(DocstringListing(name, k, text)[0])
    ensures MatchSignature(DocstringListing(name, k, text)[1]) == Some(Signature(name, ""))
  {
    DecoratorLine();
    var line := SignatureText(Signature(name, "")) + "\n";
    assert SignatureText(Signature(name, "")) <= line;
    MatchSignatureNoParams(name, line);
  }

  /** The decorator written on a line of its own is recognised. */
  lemma DecoratorLine()
    ensures IsToolDecorator(ToolDecorator + "\n")
  {
    assert ToolDecorator + "\n" == Spaces(0) + ToolDecorator + "\n";
    StripIndented(0, ToolDecorator);
  }

  lemma DocstringListingOpening(name: string, k: nat, text: string)
    ensures Skippable(DocstringListing(name, k, text)[2])
  {
    var line := DocstringListing(name, k, text)[2];
    assert line == Spaces(k) + "\"\"\"" + "\n";
    StripIndented(k, "\"\"\"");
  }

  lemma DocstringListingText(name: string, k: nat, text: string)
    requires |text| > 0 && !IsSpace(text[0]) && !IsSpace(text[|text| - 1])
    requires text[0] != '"' && text[0] != '#'
    ensures !Skippable(DocstringListing(name, k, text)[3])
    ensures LeadingWs(DocstringListing(name, k, text)[3]) == k
  {
    assert DocstringListing(name, k, text)[3] == Spaces(k) + text + "\n";
    IndentedCodeLine(k, text);
  }

  /** A line holding `x` indented by `k` spaces is code when `x` opens neither a docstring nor a comment. */
  lemma IndentedCodeLine(k: nat, x: string)
    requires |x| > 0 && !IsSpace(x[0]) && !IsSpace(x[|x| - 1])
    requires x[0] != '"' && x[0] != '#'
    ensures !Skippable(Spaces(k) + x + "\n")
    ensures LeadingWs(Spaces(k) + x + "\n") == k
  {
    StripIndented(k, x);
    CodeWhenStripped(Spaces(k) + x + "\n", x);
  }

  /** A line that strips down to a non-empty text opening neither a docstring nor a comment is code. */
  lemma CodeWhenStripped(line: string, x: string)
    requires Strip(line) == x && |x| > 0 && x[0] != '"' && x[0] != '#'
    ensures !Skippable(line)
  {
    assert !("\"\"\"" <= x) by {
      assert "\"\"\""[0] == '"';
    }
    assert !("#" <= x) by {
      assert "#"[0] == '#';
    }
  }

  /**
   * A docstring whose opening delimiter stands on a line of its own does not hide its text: the
   * first text line inside it counts as the first code line, and the tool-call line goes there,
   * inside the docstring.
   */
  lemma DocstringBodyTakenForCode(name: string, k: nat, text: string, rest: seq<string>)
    requires IsWord(name)
    requires |text| > 0 && !IsSpace(text[0]) && !IsSpace(text[|text| - 1])
    requires text[0] != '"' && text[0] != '#'
    requires !Contains(Spaces(k) + text + "\n", ToolCallMarker)
    ensures ToolInsertion(DocstringListing(name, k, text) + rest, 0)
      == Some(Insertion(3, ToolCallLine(k, name, []), "Added log_tool_call to " + name))
  {
    var listing := DocstringListing(name, k, text);
    var lines := listing + rest;
    DocstringListingHead(name, k, text);
    DocstringListingOpening(name, k, text);
    DocstringListingText(name, k, text);
    assert lines[..4] == listing;
    assert lines[0] == listing[0] && lines[1] == listing[1] && lines[2] == listing[2] && lines[3] == listing[3];
    assert FirstCodeLine(lines, 2) == 3;
  }
}
