/**
 * The pass of add_logging.py: a table of (old, new) text pairs, grouped by tool, applied in
 * order to the content of the server module, each pair replacing only the first occurrence of
 * its old text and being skipped when the old text is absent. Reading and writing the file and
 * the printed progress lines are not modelled; the pass returns, per pair, whether it applied.
 */
module ReplaceLogging {
  import opened Text

  datatype Replacement = Replacement(oldText: string, newText: string)

  /** The pairs for one tool, in their order in the table. */
  datatype ToolEntry = ToolEntry(tool: string, replacements: seq<Replacement>)

  /** The log line of the `get_position` pair, and the line it is put in front of. */
  const GetPositionCall := "log_tool_call(\"get_position\")\n    "
  const FetchingPosition := "logger.info(\"Fetching drone position\")"

  /** The table, in the insertion order of the dictionary literal. */
  const ToolLogging: seq<ToolEntry> := [
    ToolEntry("arm_drone", [
      Replacement("logger.info(\"Arming\")", "log_tool_call(\"arm_drone\")"),
      Replacement("await drone.action.arm()",
                  "log_mavlink_command(\"drone.action.arm\")\n        await drone.action.arm()")]),
    ToolEntry("takeoff_drone", [
      Replacement("logger.info(\"Initiating takeoff\")",
                  "log_tool_call(\"takeoff_drone\", takeoff_altitude=takeoff_altitude)"),
      Replacement("await drone.action.set_takeoff_altitude(takeoff_altitude)",
                  "log_mavlink_command(\"drone.action.set_takeoff_altitude\", altitude=takeoff_altitude)\n    await drone.action.set_takeoff_altitude(takeoff_altitude)"),
      Replacement("await drone.action.takeoff()",
                  "log_mavlink_command(\"drone.action.takeoff\")\n    await drone.action.takeoff()")]),
    ToolEntry("land", [
      Replacement("logger.info(\"Initiating landing\")", "log_tool_call(\"land\")"),
      Replacement("await drone.action.land()",
                  "log_mavlink_command(\"drone.action.land\")\n    await drone.action.land()")]),
    ToolEntry("get_position", [
      Replacement(FetchingPosition, GetPositionCall + FetchingPosition)]),
    ToolEntry("move_to_relative", [
      Replacement("logger.info(f\"Moving in GUIDED mode:\")",
                  "log_tool_call(\"move_to_relative\", north_m=north_m, east_m=east_m, down_m=down_m, yaw_deg=yaw_deg)\n        logger.info(f\"Moving in GUIDED mode:\")"),
      Replacement("await drone.action.goto_location(",
                  "log_mavlink_command(\"drone.action.goto_location\", lat=target_lat, lon=target_lon, alt=target_alt, yaw=yaw_deg)\n        await drone.action.goto_location(")])
  ]

  /**
   * Python's `s.replace(old, new, 1)` when `old in s`, and `s` itself otherwise: the text before the
   * first occurrence of `oldText`, then `newText`, then everything after that occurrence.
   */
  function ReplaceFirst(s: string, oldText: string, newText: string): (r: string)
    ensures !Contains(s, oldText) ==> r == s
    ensures Contains(s, oldText) ==>
      var k := IndexOf(s, oldText);
      && (forall m :: 0 <= m < k ==> !OccursAt(s, oldText, m))
      && k + |oldText| <= |s|
      && |r| == |s| - |oldText| + |newText|
      && r[..k] == s[..k] && OccursAt(r, newText, k) && r[k + |newText|..] == s[k + |oldText|..]
  {
    if Contains(s, oldText) then
      var k := IndexOf(s, oldText);
      s[..k] + newText + s[k + |oldText|..]
    else s
  }

  /**
   * The replacement, read off from where the first occurrence is: a text made of a part without
   * `oldText`, then `oldText`, then anything, has that occurrence replaced and the rest untouched.
   */
  lemma {:induction false} ReplaceFirstAt(pre: string, oldText: string, post: string, newText: string)
    requires forall m :: 0 <= m < |pre| ==> !OccursAt(pre + oldText + post, oldText, m)
    ensures ReplaceFirst(pre + oldText + post, oldText, newText) == pre + newText + post
  {
    var s := pre + oldText + post;
    assert OccursAt(s, oldText, |pre|) by {
      assert s[|pre|..|pre| + |oldText|] == oldText;
    }
    var k := IndexOf(s, oldText);
    assert k == |pre|;
    var r := ReplaceFirst(s, oldText, newText);
    assert s[..k] == pre && s[k + |oldText|..] == post;
    assert r == r[..k] + r[k..k + |newText|] + r[k + |newText|..];
  }

  /**
   * Undoing a replacement: swapping `newText` back for `oldText` restores the text, provided `newText` first
   * occurs in the result where it was put.
   */
  lemma UndoReplaceFirst(s: string, oldText: string, newText: string)
    requires Contains(s, oldText)
    requires forall m :: 0 <= m < IndexOf(s, oldText) ==> !OccursAt(ReplaceFirst(s, oldText, newText), newText, m)
    ensures ReplaceFirst(ReplaceFirst(s, oldText, newText), newText, oldText) == s
  {
    var k := IndexOf(s, oldText);
    var pre, post := s[..k], s[k + |oldText|..];
    ReplacedParts(s, oldText, newText);
    ReplaceFirstAt(pre, newText, post, oldText);
    Parts(s, k, oldText);
  }

  /** The result of a replacement that applies, as its three parts. */
  lemma ReplacedParts(s: string, oldText: string, newText: string)
    requires Contains(s, oldText)
    ensures var k := IndexOf(s, oldText);
      ReplaceFirst(s, oldText, newText) == s[..k] + newText + s[k + |oldText|..]
  {
  }

  /** A text with `x` at `k` is its part before `k`, then `x`, then its part after. */
  lemma Parts(s: string, k: nat, x: string)
    requires OccursAt(s, x, k)
    ensures s[..k] + x + s[k + |x|..] == s
  {
    assert s == s[..k] + s[k..k + |x|] + s[k + |x|..];
  }

  /**
   * A pair whose new text still contains its old text leaves the old text in the content, so running
   * the script again applies the pair again.
   */
  lemma ReplaceKeepsOld(s: string, oldText: string, newText: string)
    requires Contains(s, oldText) && Contains(newText, oldText)
    ensures Contains(ReplaceFirst(s, oldText, newText), oldText)
  {
    var k := IndexOf(s, oldText);
    var r := ReplaceFirst(s, oldText, newText);
    var p := IndexOf(newText, oldText);
    OccursNested(r, newText, k, oldText, p);
    OccursContains(r, oldText, k + p);
  }

  /**
   * The `get_position` pair of the table puts its tool-call line in front of the old text instead of in
   * its place, so the old text survives the pass and a second run of the script inserts the line again.
   */
  lemma GetPositionPairReapplies(s: string)
    requires Contains(s, ToolLogging[3].replacements[0].oldText)
    ensures ToolLogging[3].tool == "get_position"
    ensures var pair := ToolLogging[3].replacements[0];
      Contains(ReplaceFirst(s, pair.oldText, pair.newText), pair.oldText)
  {
    var pair := ToolLogging[3].replacements[0];
    assert pair.oldText == FetchingPosition && pair.newText == GetPositionCall + FetchingPosition;
    assert OccursAt(pair.newText, pair.oldText, |GetPositionCall|) by {
      assert pair.newText[|GetPositionCall|..] == pair.oldText;
    }
    OccursContains(pair.newText, pair.oldText, |GetPositionCall|);
    ReplaceKeepsOld(s, pair.oldText, pair.newText);
  }

  /** Text after the replaced occurrence is left as it was, later occurrences of `oldText` included. */
  lemma ReplaceFirstKeepsLater(s: string, oldText: string, newText: string, m: nat)
    requires Contains(s, oldText) && IndexOf(s, oldText) + |oldText| <= m && OccursAt(s, oldText, m)
    ensures OccursAt(ReplaceFirst(s, oldText, newText), oldText, m - |oldText| + |newText|)
  {
    var k := IndexOf(s, oldText);
    var r := ReplaceFirst(s, oldText, newText);
    OccursInSuffix(s, oldText, k + |oldText|, m - k - |oldText|);
    assert r[k + |newText|..] == s[k + |oldText|..];
    OccursInSuffix(r, oldText, k + |newText|, m - k - |oldText|);
  }

  // ---------------------------------------------------------------------------------------------
  // The table applied in order

  /** All pairs of the table, tool after tool, each tool's pairs in order. */
  function Flatten(table: seq<ToolEntry>): (pairs: seq<Replacement>)
    decreases |table|
  {
    if |table| == 0 then [] else Flatten(table[..|table| - 1]) + table[|table| - 1].replacements
  }

  /** The content after applying the pairs in order, each to the result of the previous ones. */
  function ApplyAll(s: string, pairs: seq<Replacement>): (r: string)
    decreases |pairs|
    ensures (forall k :: 0 <= k < |pairs| ==> |pairs[k].oldText| <= |pairs[k].newText|) ==> |r| >= |s|
  {
    if |pairs| == 0 then s
    else var last := pairs[|pairs| - 1];
      ReplaceFirst(ApplyAll(s, pairs[..|pairs| - 1]), last.oldText, last.newText)
  }

  /** Whether each pair found its old text in the content left by the pairs before it. */
  function Found(s: string, pairs: seq<Replacement>): (found: seq<bool>)
    decreases |pairs|
    ensures |found| == |pairs|
  {
    if |pairs| == 0 then []
    else
      var init := pairs[..|pairs| - 1];
      Found(s, init) + [Contains(ApplyAll(s, init), pairs[|pairs| - 1].oldText)]
  }

  /** The total length change of the pairs that applied: `|newText| - |oldText|` each, 0 for a skipped one. */
  function Delta(pairs: seq<Replacement>, found: seq<bool>): int
    requires |found| == |pairs|
    decreases |pairs|
  {
    if |pairs| == 0 then 0
    else
      var n := |pairs| - 1;
      Delta(pairs[..n], found[..n]) + (if found[n] then |pairs[n].newText| - |pairs[n].oldText| else 0)
  }

  /** Applying a list of pairs is applying its first part, then its second part to the result. */
  lemma {:induction false} ApplyAllConcat(s: string, a: seq<Replacement>, b: seq<Replacement>)
    ensures ApplyAll(s, a + b) == ApplyAll(ApplyAll(s, a), b)
    decreases |b|
  {
    if |b| == 0 {
      assert a + b == a;
    } else {
      assert (a + b)[..|a + b| - 1] == a + b[..|b| - 1];
      ApplyAllConcat(s, a, b[..|b| - 1]);
    }
  }

  /** The content grows by exactly the length change of the pairs that applied. */
  lemma {:induction false} ApplyAllLength(s: string, pairs: seq<Replacement>)
    ensures |ApplyAll(s, pairs)| == |s| + Delta(pairs, Found(s, pairs))
    decreases |pairs|
  {
    if |pairs| > 0 {
      var n := |pairs| - 1;
      ApplyAllLength(s, pairs[..n]);
      assert Found(s, pairs)[..n] == Found(s, pairs[..n]);
    }
  }

  /** A table whose old texts are all absent leaves the content unchanged. */
  lemma {:induction false} ApplyAllNoneFound(s: string, pairs: seq<Replacement>)
    requires forall k :: 0 <= k < |pairs| ==> !Contains(s, pairs[k].oldText)
    ensures ApplyAll(s, pairs) == s && forall k :: 0 <= k < |pairs| ==> !Found(s, pairs)[k]
    decreases |pairs|
  {
    if |pairs| > 0 {
      var n := |pairs| - 1;
      ApplyAllNoneFound(s, pairs[..n]);
      assert Found(s, pairs)[..n] == Found(s, pairs[..n]);
    }
  }

  /** Applying one more pair applies it to the content the earlier pairs left, and records whether it was found. */
  lemma ApplyOneMore(s: string, pairs: seq<Replacement>, pair: Replacement)
    ensures ApplyAll(s, pairs + [pair]) == ReplaceFirst(ApplyAll(s, pairs), pair.oldText, pair.newText)
    ensures Found(s, pairs + [pair]) == Found(s, pairs) + [Contains(ApplyAll(s, pairs), pair.oldText)]
  {
    assert (pairs + [pair])[..|pairs|] == pairs;
  }

  /** One pair: replaced when its old text is present, and whether it was. */
  method ApplyPair(content: string, pair: Replacement) returns (content': string, applied: bool)
    ensures content' == ReplaceFirst(content, pair.oldText, pair.newText)
    ensures applied == Contains(content, pair.oldText)
    ensures !applied ==> content' == content
  {
    if Contains(content, pair.oldText) {
      content' := ReplaceFirst(content, pair.oldText, pair.newText);
      applied := true;
    } else {
      content' := content;
      applied := false;
    }
  }

  /** The nested loops over the table, with the outcome of each pair in table order. */
  method ApplyToolLogging(content: string, table: seq<ToolEntry>) returns (result: string, found: seq<bool>)
    ensures result == ApplyAll(content, Flatten(table))
    ensures found == Found(content, Flatten(table))
    ensures |result| == |content| + Delta(Flatten(table), found)
  {
    result, found := content, [];
    for t := 0 to |table|
      invariant result == ApplyAll(content, Flatten(table[..t]))
      invariant found == Found(content, Flatten(table[..t]))
    {
      assert table[..t + 1][..t] == table[..t];
      result, found := ApplyEntry(content, Flatten(table[..t]), table[t].replacements, result, found);
    }
    assert table[..|table|] == table;
    ApplyAllLength(content, Flatten(table));
  }

  /**
   * The inner loop: one tool's pairs applied in order to the content left by the pairs `done` before them,
   * with the outcome of each.
   */
  method ApplyEntry(ghost content: string, ghost done: seq<Replacement>, replacements: seq<Replacement>,
                    result: string, found: seq<bool>)
    returns (result': string, found': seq<bool>)
    requires result == ApplyAll(content, done) && found == Found(content, done)
    ensures result' == ApplyAll(content, done + replacements)
    ensures found' == Found(content, done + replacements)
  {
    result', found' := result, found;
    ghost var pairs := done;
    assert done + replacements[..0] == done;
    for r := 0 to |replacements|
      invariant pairs == done + replacements[..r]
      invariant result' == ApplyAll(content, pairs) && found' == Found(content, pairs)
    {
      var pair := replacements[r];
      ApplyOneMore(content, pairs, pair);
      assert done + replacements[..r + 1] == pairs + [pair];
      pairs := pairs + [pair];
      var applied;
      result', applied := ApplyPair(result', pair);
      found' := found' + [applied];
    }
    assert replacements[..|replacements|] == replacements;
  }
}
