// How the mobile agent reads an action out of a model reply: first the
// JSON of the first brace-free `{…}` span, else the word after an
// `action:` label, else nothing. `json.loads` is a parameter (`decode`),
// `None` where it raises JSONDecodeError.
module AgentReply {
  import opened Wrappers
  import opened Seqs
  import opened PyStr
  import opened Dicts
  import opened Json

  predicate IsBrace(c: char) { c == '{' || c == '}' }

  /** The first brace at or after `i`, or `|s|`. */
  function NextBrace(s: string, i: nat): (r: nat)
    requires i <= |s|
    ensures i <= r <= |s|
    ensures forall k :: i <= k < r ==> !IsBrace(s[k])
    ensures r < |s| ==> IsBrace(s[r])
    decreases |s| - i
  {
    if i == |s| || IsBrace(s[i]) then i else NextBrace(s, i + 1)
  }

  /** A brace-free `{…}` span can start at `k`: the first brace after the
    * opening one closes it. */
  predicate SpanAt(s: string, k: nat)
    requires k < |s|
  {
    s[k] == '{' && NextBrace(s, k + 1) < |s| && s[NextBrace(s, k + 1)] == '}'
  }

  /** `re.search(r"\{[^{}]*\}", s)` from `i`: the leftmost span, as start and end. */
  function SpanFrom(s: string, i: nat): (r: Option<(nat, nat)>)
    requires i <= |s|
    ensures r.Some? ==> (i <= r.value.0 < r.value.1 <= |s| && SpanAt(s, r.value.0)
                         && r.value.1 == NextBrace(s, r.value.0 + 1) + 1)
    ensures r.Some? ==> forall k :: i <= k < r.value.0 ==> !SpanAt(s, k)
    ensures r.None? ==> forall k :: i <= k < |s| ==> !SpanAt(s, k)
    decreases |s| - i
  {
    if i == |s| then None
    else if SpanAt(s, i) then Some((i, NextBrace(s, i + 1) + 1))
    else SpanFrom(s, i + 1)
  }

  /** The matched span holds no brace but its two ends. */
  lemma SpanIsBraceFree(s: string)
    requires SpanFrom(s, 0).Some?
    ensures var (a, b) := SpanFrom(s, 0).value;
      s[a] == '{' && s[b - 1] == '}' && forall k :: a < k < b - 1 ==> !IsBrace(s[k])
  {
  }

  /** The first brace from `i` is at `j` when none comes between. */
  lemma NextBraceAt(s: string, i: nat, j: nat)
    requires i <= j < |s| && IsBrace(s[j])
    requires forall k :: i <= k < j ==> !IsBrace(s[k])
    ensures NextBrace(s, i) == j
  {
  }

  /** An opening brace at `o`, another at `a` and a closing one at `e`, with
    * no brace elsewhere before `e`: the span is the inner `s[a..e + 1]`. */
  lemma NestedSpan(s: string, o: nat, a: nat, e: nat)
    requires o < a < e < |s| && s[o] == '{' && s[a] == '{' && s[e] == '}'
    requires forall k :: 0 <= k < e && k != o && k != a ==> !IsBrace(s[k])
    ensures SpanFrom(s, 0) == Some((a, e + 1))
  {
    NextBraceAt(s, o + 1, a);
    NextBraceAt(s, a + 1, e);
    assert !SpanAt(s, o);
    assert SpanAt(s, a);
    forall k | 0 <= k < a
      ensures !SpanAt(s, k)
    {
      if k != o {
        assert !IsBrace(s[k]);
      }
    }
  }

  /** In a reply `pre{head{body}tail` with brace-free `pre`, `head` and `body`,
    * the strict stage takes the INNER object `{body}`: a nested `params`
    * object is what gets decoded, not the whole reply. */
  lemma StrictTakesInner(pre: string, head: string, body: string, tail: string)
    requires forall k :: 0 <= k < |pre| ==> !IsBrace(pre[k])
    requires forall k :: 0 <= k < |head| ==> !IsBrace(head[k])
    requires forall k :: 0 <= k < |body| ==> !IsBrace(body[k])
    ensures var s := (pre + "{" + head) + ("{" + body + "}") + tail;
      var a := |pre| + 1 + |head|;
      SpanFrom(s, 0) == Some((a, a + |body| + 2)) && s[a..a + |body| + 2] == "{" + body + "}"
  {
    var x, m := pre + "{" + head, "{" + body + "}";
    var s := x + m + tail;
    var o := |pre|;
    var a := |x|;
    assert s[o] == '{' && s[a] == '{' && s[a + |body| + 1] == '}';
    forall k | 0 <= k < a + |body| + 1 && k != o && k != a
      ensures !IsBrace(s[k])
    {
      if k < o {
        assert s[k] == pre[k];
      } else if k < a {
        assert s[k] == head[k - o - 1];
      } else {
        assert s[k] == body[k - a - 1];
      }
    }
    NestedSpan(s, o, a, a + |body| + 1);
    SliceMiddle(x, m, tail);
  }

  lemma SliceMiddle(x: string, m: string, y: string)
    ensures (x + m + y)[|x|..|x| + |m|] == m
  {
  }

  // ---------------------------------------------------------------------------
  // The fallback: `"?action"?\s*:\s*"?(\w+)"?`, case-insensitive

  /** A word character (ASCII letters, digits and underscore). */
  predicate IsWordChar(c: char) { IsAsciiAlnum(c) || c == '_' }

  function SkipSpaces(s: string, i: nat): (r: nat)
    requires i <= |s|
    ensures i <= r <= |s| && (r < |s| ==> !IsSpace(s[r]))
    ensures forall k :: i <= k < r ==> IsSpace(s[k])
    decreases |s| - i
  {
    if i == |s| || !IsSpace(s[i]) then i else SkipSpaces(s, i + 1)
  }

  function WordEnd(s: string, i: nat): (r: nat)
    requires i <= |s|
    ensures i <= r <= |s| && (r < |s| ==> !IsWordChar(s[r]))
    ensures forall k :: i <= k < r ==> IsWordChar(s[k])
    decreases |s| - i
  {
    if i == |s| || !IsWordChar(s[i]) then i else WordEnd(s, i + 1)
  }

  /** The captured word of a match whose "action" starts at `k`. */
  function ActionMatchAt(s: string, k: nat): (r: Option<string>)
    requires k <= |s|
    ensures r.Some? ==> r.value != [] && forall c :: c in r.value ==> IsWordChar(c)
    ensures r.Some? ==> k + 6 <= |s| && Lower(s[k..k + 6]) == "action"
  {
    if k + 6 > |s| || Lower(s[k..k + 6]) != "action" then None
    else
      var p1 := if k + 6 < |s| && s[k + 6] == '"' then k + 7 else k + 6;
      var p2 := SkipSpaces(s, p1);
      if p2 == |s| || s[p2] != ':' then None
      else
        var p3 := SkipSpaces(s, p2 + 1);
        var p4 := if p3 < |s| && s[p3] == '"' then p3 + 1 else p3;
        var e := WordEnd(s, p4);
        if e == p4 then None else Some(s[p4..e])
  }

  /** The word of the leftmost match at or after `k`. */
  function ActionWordFrom(s: string, k: nat): (r: Option<string>)
    requires k <= |s|
    ensures r.Some? ==> r.value != [] && forall c :: c in r.value ==> IsWordChar(c)
    ensures r.None? ==> forall j :: k <= j <= |s| ==> ActionMatchAt(s, j).None?
    decreases |s| - k
  {
    match ActionMatchAt(s, k)
    case Some(w) => Some(w)
    case None => if k == |s| then None else ActionWordFrom(s, k + 1)
  }

  /** The action the fallback stage builds from a matched word. */
  function FallbackAction(content: string, word: string): (d: Dict<Json>)
    ensures Keys(d) == ["action", "thought", "params"]
  {
    [("action", JStr(Lower(word))), ("thought", JStr(Take(content, 100))), ("params", JObj([]))]
  }

  /** The strict stage: `json.loads` of the leftmost span, if there is one. */
  function StrictStage(content: string, decode: string -> Option<Dict<Json>>): (r: Option<Dict<Json>>)
    ensures SpanFrom(content, 0).None? ==> r.None?
    ensures SpanFrom(content, 0).Some? ==>
      r == decode(content[SpanFrom(content, 0).value.0..SpanFrom(content, 0).value.1])
  {
    match SpanFrom(content, 0)
    case Some((a, b)) => decode(content[a..b])
    case None => None
  }

  /** `_parse_action`: the decoded span when it decodes, else the fallback
    * action when the label matches, else `None`. */
  function ParseAction(content: string, decode: string -> Option<Dict<Json>>): (r: Option<Dict<Json>>)
    ensures r.None? <==> (StrictStage(content, decode).None? && ActionWordFrom(content, 0).None?)
    ensures StrictStage(content, decode).Some? ==> r == StrictStage(content, decode)
    ensures StrictStage(content, decode).None? && ActionWordFrom(content, 0).Some? ==>
      r == Some(FallbackAction(content, ActionWordFrom(content, 0).value))
  {
    var strict := StrictStage(content, decode);
    if strict.Some? then strict
    else match ActionWordFrom(content, 0)
      case Some(w) => Some(FallbackAction(content, w))
      case None => None
  }

  /** When the strict stage fails, the fallback's action is the lower-cased
    * word, its thought the first 100 characters and its params empty. */
  lemma FallbackFields(content: string, decode: string -> Option<Dict<Json>>)
    requires StrictStage(content, decode).None?
    requires ActionWordFrom(content, 0).Some?
    ensures var d := ParseAction(content, decode).value;
      Get(d, "action") == Some(JStr(Lower(ActionWordFrom(content, 0).value)))
      && Get(d, "thought") == Some(JStr(Take(content, 100))) && |Take(content, 100)| <= 100
      && Get(d, "params") == Some(JObj([]))
  {
    var d := ParseAction(content, decode).value;
    assert d[1..] == [("thought", JStr(Take(content, 100))), ("params", JObj([]))];
    assert d[1..][1..] == [("params", JObj([]))];
    assert Get(d[1..][1..], "params") == Some(JObj([]));
    assert "thought" != "action" && "params" != "action" && "params" != "thought" by {
      assert "thought"[0] == 't' && "params"[0] == 'p' && "action"[0] == 'a';
    }
  }
}
