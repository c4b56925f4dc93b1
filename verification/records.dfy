/**
 * The records wrangler's reply handling: the markdown fence around the JSON
 * an LLM returns is stripped before parsing, and the parsed output is
 * sanitised so that both record lists are lists of dicts carrying their
 * default fields and the confidence lies in [0, 1].
 */
module RecordsWrangler {
  import opened Outcomes
  import opened Text
  import opened Json

  // ---------------------------------------------------------------------
  // Fence stripping
  // ---------------------------------------------------------------------

  const Fence: string := "```"
  const JsonFence: string := "```json"

  /** `s` up to the first fence, or all of `s` when it has none: `s.split("```")[0]`. */
  function BeforeFence(s: string): (r: string)
    ensures StartsWith(s, r)
    ensures !Contains(r, Fence)
  {
    match IndexOf(s, Fence)
    case None => s
    case Some(j) =>
      NoOccurrenceBefore(s, Fence, j);
      s[..j]
  }

  /** `s` up to the first "```json", or all of `s` when it has none: `s.split("```json")[0]`. */
  function BeforeJsonFence(s: string): (r: string)
    ensures StartsWith(s, r)
    ensures !Contains(r, JsonFence)
    ensures Contains(s, JsonFence) ==> OccursAt(s, JsonFence, |r|)
  {
    match IndexOf(s, JsonFence)
    case None => s
    case Some(j) =>
      NoOccurrenceBefore(s, JsonFence, j);
      s[..j]
  }

  /** No occurrence starting before `j` means none inside `s[..j]`. */
  lemma NoOccurrenceBefore(s: string, sub: string, j: nat)
    requires j <= |s| && |sub| > 0
    requires forall i: nat :: i < j ==> !OccursAt(s, sub, i)
    ensures !Contains(s[..j], sub)
  {
    ContainsIff(s[..j], sub);
    forall i: nat | OccursAt(s[..j], sub, i)
      ensures false
    {
      assert i < j;
      assert s[..j][i..i + |sub|] == s[i..i + |sub|];
      assert OccursAt(s, sub, i);
    }
  }

  /** A part of a string without `sub` has no `sub` either. */
  lemma NoOccurrenceInside(s: string, sub: string, a: nat, b: nat)
    requires a <= b <= |s| && !Contains(s, sub)
    ensures !Contains(s[a..b], sub)
  {
    ContainsIff(s, sub);
    ContainsIff(s[a..b], sub);
    forall i: nat | OccursAt(s[a..b], sub, i)
      ensures false
    {
      assert a + i + |sub| <= b;
      forall k | 0 <= k < |sub|
        ensures s[a + i..a + i + |sub|][k] == sub[k]
      {
        assert s[a..b][i..i + |sub|][k] == s[a..b][i + k] == s[a + i + k];
      }
      assert s[a + i..a + i + |sub|] == sub;
      assert OccursAt(s, sub, a + i);
    }
  }

  lemma StripInside(s: string)
    ensures exists a: nat, b: nat :: a <= b <= |s| && Strip(s) == s[a..b]
  {
    var l := LStrip(s);
    var a := |s| - |l|;
    var r := RStrip(l);
    assert Strip(s) == r;
    assert r == s[a..a + |r|] by {
      assert l == s[a..];
      assert r == l[..|r|];
      assert s[a..][..|r|] == s[a..a + |r|];
    }
    assert a <= a + |r| <= |s|;
  }

  lemma StripKeepsNoOccurrence(s: string, sub: string)
    requires !Contains(s, sub)
    ensures !Contains(Strip(s), sub)
  {
    StripInside(s);
    var a: nat, b: nat :| a <= b <= |s| && Strip(s) == s[a..b];
    NoOccurrenceInside(s, sub, a, b);
  }

  /** Every "```json" begins with a "```". */
  lemma JsonFenceIsFence(s: string)
    ensures Contains(s, JsonFence) ==> Contains(s, Fence)
  {
    ContainsIff(s, JsonFence);
    ContainsIff(s, Fence);
    if Contains(s, JsonFence) {
      var i: nat :| OccursAt(s, JsonFence, i);
      assert s[i..i + 3] == s[i..i + 7][..3];
      assert OccursAt(s, Fence, i);
    }
  }

  /**
   * The step before `json.loads`. After the first "```json", the text is
   * first cut at the next "```json" (`split("```json")[1]`) and then at its
   * first "```", and trimmed; failing a "```json", the text after the first
   * "```" up to the next one is trimmed; content without a fence is left as
   * it is.
   */
  function StripFences(content: string): (r: string)
    ensures !Contains(content, Fence) ==> r == content
    ensures !Contains(r, Fence)
  {
    JsonFenceIsFence(content);
    match IndexOf(content, JsonFence)
    case Some(k) => FencedBody(BeforeJsonFence(content[k + |JsonFence|..]))
    case None =>
      match IndexOf(content, Fence)
      case Some(k) => FencedBody(content[k + |Fence|..])
      case None => content
  }

  /** The text after an opening fence up to the next fence, trimmed. */
  function FencedBody(after: string): (r: string)
    ensures !Contains(r, Fence)
  {
    StripKeepsNoOccurrence(BeforeFence(after), Fence);
    Strip(BeforeFence(after))
  }

  /** Stripping twice strips nothing more. */
  lemma StripFencesIdempotent(content: string)
    ensures StripFences(StripFences(content)) == StripFences(content)
  {
    JsonFenceIsFence(StripFences(content));
  }

  /** `s` does not end with a backquote, so no fence appended to it can start inside it. */
  predicate EndsClean(s: string) {
    s == [] || s[|s| - 1] != '`'
  }

  /** `s` does not start with a backquote, so no fence ending just before it can run into it. */
  predicate StartsClean(s: string) {
    s == [] || s[0] != '`'
  }

  /** An occurrence with none before it is the one `find` reports. */
  lemma IndexOfFirst(s: string, sub: string, i: nat)
    requires OccursAt(s, sub, i)
    requires forall j: nat :: j < i ==> !OccursAt(s, sub, j)
    ensures IndexOf(s, sub) == Some(i)
  {
  }

  /**
   * When `s` starts with `pre` and then a fence, no fence starts inside
   * `pre`: none lies wholly in it, and none can straddle into the fence
   * (for a plain fence, because `pre` does not end with a backquote; for
   * "```json", because its "json" never lines up with backquotes).
   */
  lemma NoFenceInPrefix(s: string, pre: string, open: string)
    requires open == Fence || open == JsonFence
    requires |pre| + |open| <= |s| && s[..|pre| + |open|] == pre + open
    requires !Contains(pre, open)
    requires open == Fence ==> EndsClean(pre)
    ensures forall j: nat :: j < |pre| ==> !OccursAt(s, open, j)
  {
    assert forall k :: 0 <= k < |pre| ==> s[k] == s[..|pre| + |open|][k] == pre[k];
    assert forall k :: 0 <= k < |open| ==> s[|pre| + k] == s[..|pre| + |open|][|pre| + k] == open[k];
    forall j: nat | j < |pre|
      ensures !OccursAt(s, open, j)
    {
      if j + |open| <= |pre| {
        assert s[j..j + |open|] == pre[j..j + |open|];
        assert !OccursAt(pre, open, j);
      } else if open == Fence {
        var k := |pre| - 1 - j;
        assert s[j..j + |open|][k] == s[|pre| - 1] && open[k] == '`';
        assert s[|pre| - 1] == pre[|pre| - 1];
      } else {
        var d := |pre| - j;
        if d <= 3 {
          assert s[j..j + |open|][3] == s[|pre| + 3 - d] && open[3] == 'j';
          assert s[|pre| + 3 - d] == open[3 - d] == '`';
        } else {
          assert s[j..j + |open|][d] == s[|pre|];
          assert s[|pre|] == '`' && open[d] != '`';
        }
      }
    }
  }

  /** The text before the first fence of `body + "```" + rest` is `body`. */
  lemma BeforeFenceOf(body: string, rest: string)
    requires !Contains(body, Fence) && EndsClean(body)
    ensures BeforeFence(body + Fence + rest) == body
  {
    var after := body + Fence + rest;
    assert after[..|body| + |Fence|] == body + Fence;
    NoFenceInPrefix(after, body, Fence);
    IndexOfFirst(after, Fence, |body|);
  }

  /** The first opening fence after text that holds none is the one right after that text. */
  lemma OpenedAfter(pre: string, open: string, rest: string)
    requires open == Fence || open == JsonFence
    requires !Contains(pre, open) && (open == Fence ==> EndsClean(pre))
    ensures IndexOf(pre + open + rest, open) == Some(|pre|)
    ensures (pre + open + rest)[|pre| + |open|..] == rest
  {
    var content := pre + open + rest;
    assert content[..|pre| + |open|] == pre + open;
    NoFenceInPrefix(content, pre, open);
    IndexOfFirst(content, open, |pre|);
  }

  /** Cutting `body + "```" + rest` anywhere after that fence leaves `body` before the first fence. */
  lemma BeforeFenceOfPrefix(body: string, rest: string, j: nat)
    requires !Contains(body, Fence) && EndsClean(body)
    requires |body| + |Fence| <= j <= |body| + |Fence| + |rest|
    ensures BeforeFence((body + Fence + rest)[..j]) == body
  {
    assert (body + Fence + rest)[..j] == body + Fence + rest[..j - |body| - |Fence|];
    BeforeFenceOf(body, rest[..j - |body| - |Fence|]);
  }

  /** The `k`th character of a slice is the character `k` places into the string. */
  lemma SliceChar(s: string, i: int, n: int, k: int)
    ensures 0 <= i <= i + n <= |s| && 0 <= k < n ==> s[i..i + n][k] == s[i + k]
  {
  }

  /**
   * In `body + "```" + post`, with `body` free of fences and of a final
   * backquote and `post` free of a leading one, the first "```json" is the
   * closing fence itself or lies wholly after it.
   */
  lemma JsonFenceAfterClose(body: string, post: string)
    requires !Contains(body, Fence) && EndsClean(body) && StartsClean(post)
    ensures var after, j := body + Fence + post, IndexOf(body + Fence + post, JsonFence);
      j.None? || j.value == |body| || j.value >= |body| + |Fence|
  {
    var after := body + Fence + post;
    assert after[..|body| + |Fence|] == body + Fence;
    NoFenceInPrefix(after, body, Fence);
    assert |post| > 0 ==> after[|body| + |Fence|] == post[0];
    match IndexOf(after, JsonFence)
    case None =>
    case Some(j) =>
      assert after[j..j + 3] == after[j..j + 7][..3] == Fence;
      assert OccursAt(after, Fence, j);
      SliceChar(after, j, |Fence|, |body| + |Fence| - j);
  }

  /**
   * A json block after text without "```json" gives back its trimmed body,
   * whatever follows the closing fence, when the body holds no fence and
   * does not end with a backquote and what follows does not start with one.
   */
  lemma StripFencedBlock(pre: string, body: string, post: string)
    requires !Contains(pre, JsonFence)
    requires !Contains(body, Fence) && EndsClean(body) && StartsClean(post)
    ensures StripFences(pre + JsonFence + body + Fence + post) == Strip(body)
  {
    var rest := body + Fence + post;
    assert pre + JsonFence + body + Fence + post == pre + JsonFence + rest;
    OpenedAfter(pre, JsonFence, rest);
    JsonFenceAfterClose(body, post);
    var cut := BeforeJsonFence(rest);
    match IndexOf(rest, JsonFence)
    case None =>
      BeforeFenceOf(body, post);
    case Some(j) =>
      assert cut == rest[..j];
      if j == |body| {
        assert rest[..j] == body;
        assert IndexOf(body, Fence).None?;
      } else {
        BeforeFenceOfPrefix(body, post, j);
      }
  }

  /**
   * The closing fence of a json block can be the start of a longer run of
   * backquotes that opens another "```json"; the text is then cut at that
   * "```json", and the backquotes before it stay in the reply.
   */
  lemma JsonFenceCutsFirst(content: string)
    requires content == "```json{}`````json"
    ensures StripFences(content) == "{}``"
  {
    IndexOfFirst(content, JsonFence, 0);
    assert content[7..] == "{}`````json";
    CutAtSecondJsonFence(content[7..]);
    BackquotesKept("{}``");
  }

  /** The text after the opening fence of that reply is cut at its "```json". */
  lemma CutAtSecondJsonFence(after: string)
    requires after == "{}`````json"
    ensures BeforeJsonFence(after) == "{}``"
  {
    forall j: nat | j < 4
      ensures !OccursAt(after, JsonFence, j)
    {
      if j + 7 <= |after| {
        assert after[j..j + 7][3] == after[j + 3] == '`';
      }
    }
    IndexOfFirst(after, JsonFence, 4);
  }

  /** Two backquotes after the braces are no fence, so they survive the cut. */
  lemma BackquotesKept(t: string)
    requires t == "{}``"
    ensures FencedBody(t) == t
  {
    assert t[0..3][0] == '{' && t[1..4][0] == '}';
    assert IndexFrom(t, Fence, 2) == None;
    assert IndexFrom(t, Fence, 1) == None;
    assert IndexOf(t, Fence) == None;
    assert Strip(t) == t;
  }

  /**
   * A plain fenced block, in a reply with no "```json" anywhere, after text
   * without a fence or a final backquote, gives back its trimmed body.
   */
  lemma StripPlainFencedBlock(pre: string, body: string, post: string)
    requires !Contains(pre + Fence + body + Fence + post, JsonFence)
    requires !Contains(pre, Fence) && EndsClean(pre)
    requires !Contains(body, Fence) && EndsClean(body)
    ensures StripFences(pre + Fence + body + Fence + post) == Strip(body)
  {
    var rest := body + Fence + post;
    assert pre + Fence + body + Fence + post == pre + Fence + rest;
    OpenedAfter(pre, Fence, rest);
    BeforeFenceOf(body, post);
  }

  // ---------------------------------------------------------------------
  // The sanitiser
  // ---------------------------------------------------------------------

  const OutputKeys: set<string> := {"missing_records", "duplicates", "recommended_action", "confidence_score"}

  const RecordDefaults: Obj := map[
    "type" := JStr("unknown"), "description" := JStr(""), "urgency" := JStr("medium"),
    "source" := JStr("unknown")]

  const DuplicateDefaults: Obj := map[
    "type" := JStr("unknown"), "instances" := JNum(0.0), "description" := JStr("")]

  /**
   * `_validate_output`: exactly the four expected keys; both record lists
   * are lists whose dict items carry their defaults; the confidence is
   * clamped to [0, 1], 0.0 when it is not a number.
   */
  method ValidateOutput(result: Obj) returns (validated: Obj)
    ensures validated.Keys == OutputKeys
    ensures validated["missing_records"] ==
      JArr(FillAll(ListOr(Get(result, "missing_records", JArr([]))), RecordDefaults))
    ensures validated["duplicates"] ==
      JArr(FillAll(ListOr(Get(result, "duplicates", JArr([]))), DuplicateDefaults))
    ensures validated["recommended_action"] == Get(result, "recommended_action", JStr(""))
    ensures validated["confidence_score"] == JNum(Score(Get(result, "confidence_score", JNum(0.0)), 0.0))
  {
    validated := map[
      "missing_records" := Get(result, "missing_records", JArr([])),
      "duplicates" := Get(result, "duplicates", JArr([])),
      "recommended_action" := Get(result, "recommended_action", JStr("")),
      "confidence_score" := Get(result, "confidence_score", JNum(0.0))];
    assert validated.Keys == OutputKeys;

    var records := FillEach(ListOr(validated["missing_records"]), RecordDefaults);
    validated := validated["missing_records" := JArr(records)];
    assert validated.Keys == OutputKeys;

    var duplicates := FillEach(ListOr(validated["duplicates"]), DuplicateDefaults);
    validated := validated["duplicates" := JArr(duplicates)];
    assert validated.Keys == OutputKeys;

    validated := validated["confidence_score" := JNum(Score(validated["confidence_score"], 0.0))];
    assert validated.Keys == OutputKeys;
  }
}
