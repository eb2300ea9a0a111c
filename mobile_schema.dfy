// The compact action, screen and feedback codecs of the mobile agent's DSL,
// and the character-ratio estimate of the token reduction they achieve.
// JSON text is not produced here: an encoded action is the decoded object
// that `json.dumps` would serialise.
module MobileSchema {
  import opened Wrappers
  import opened Seqs
  import opened PyStr
  import opened Dicts
  import opened Json

  datatype ActionType = Tap | Swipe | Type | Back | Home | Launch | Wait | Done

  /** The enum value of an action: its DSL name. */
  function ActionName(a: ActionType): string
  {
    match a
    case Tap => "tap"
    case Swipe => "swipe"
    case Type => "type"
    case Back => "back"
    case Home => "home"
    case Launch => "launch"
    case Wait => "wait"
    case Done => "done"
  }

  /** `ActionType(value)`: `None` where the enum raises ValueError. */
  function ActionOf(value: Json): (r: Option<ActionType>)
    ensures r.Some? ==> value == JStr(ActionName(r.value))
  {
    match value
    case JStr(s) =>
      if s == "tap" then Some(Tap)
      else if s == "swipe" then Some(Swipe)
      else if s == "type" then Some(Type)
      else if s == "back" then Some(Back)
      else if s == "home" then Some(Home)
      else if s == "launch" then Some(Launch)
      else if s == "wait" then Some(Wait)
      else if s == "done" then Some(Done)
      else None
    case _ => None
  }

  /** Every action name decodes to its action. */
  lemma ActionNameRoundTrip(a: ActionType)
    ensures ActionOf(JStr(ActionName(a))) == Some(a)
  {
  }

  /** The record keeps `thought` and `confidence` as whatever values it was
    * built with: the dataclass does not check their types. */
  datatype MobileAction = MobileAction(thought: Json, action: ActionType, params: Dict<Json>, confidence: Json)

  /** The parameter keys the DSL shortens, and their short forms. */
  const LongKeys: seq<string> := ["element_index", "text", "package", "direction", "seconds"]
  const ShortKeys: seq<string> := ["ei", "txt", "pkg", "d", "s"]

  function CompressKey(k: string): (r: string)
    ensures k !in LongKeys ==> r == k
    ensures k in LongKeys ==> r in ShortKeys
  {
    if k == "element_index" then "ei"
    else if k == "text" then "txt"
    else if k == "package" then "pkg"
    else if k == "direction" then "d"
    else if k == "seconds" then "s"
    else k
  }

  function ExpandKey(k: string): (r: string)
    ensures k !in ShortKeys ==> r == k
    ensures k in ShortKeys ==> r in LongKeys
  {
    if k == "ei" then "element_index"
    else if k == "txt" then "text"
    else if k == "pkg" then "package"
    else if k == "d" then "direction"
    else if k == "s" then "seconds"
    else k
  }

  /** Expanding undoes compressing for every key that is not itself a short key. */
  lemma ExpandCompress(k: string)
    requires k !in ShortKeys
    ensures ExpandKey(CompressKey(k)) == k
  {
  }

  /** Two different keys that are not short keys never compress to the same key. */
  lemma CompressInjective(k: string, k': string)
    requires k !in ShortKeys && k' !in ShortKeys && k != k'
    ensures CompressKey(k) != CompressKey(k')
  {
    ExpandCompress(k);
    ExpandCompress(k');
  }

  /** Each entry's key passed through `f`, values and order kept. */
  function RenameKeys(d: Dict<Json>, f: string -> string): (r: Dict<Json>)
    ensures |r| == |d|
    ensures forall i :: 0 <= i < |d| ==> r[i] == (f(d[i].0), d[i].1)
  {
    seq(|d|, i requires 0 <= i < |d| => (f(d[i].0), d[i].1))
  }

  /** `{key_map.get(k, k): v for k, v in params.items()}`: when two keys rename
    * to the same key, the later value wins at the earlier position. */
  function CompressParams(params: Dict<Json>): Dict<Json>
  {
    FromPairs(RenameKeys(params, CompressKey))
  }

  function ExpandParams(params: Dict<Json>): Dict<Json>
  {
    FromPairs(RenameKeys(params, ExpandKey))
  }

  /** `d[k] = v` for a new key appends the entry. */
  lemma {:induction false} PutNew(d: Dict<Json>, k: string, v: Json)
    requires !HasKey(d, k)
    ensures Put(d, k, v) == d + [(k, v)]
  {
    if d != [] {
      HasKeyTail(d, k);
      PutNew(d[1..], k, v);
      assert [d[0]] + (d[1..] + [(k, v)]) == d + [(k, v)];
    }
  }

  /** Building a dictionary from pairs with distinct keys keeps them as they are. */
  lemma {:induction false} FromPairsUnique(pairs: Dict<Json>)
    requires UniqueKeys(pairs)
    ensures FromPairs(pairs) == pairs
  {
    if pairs != [] {
      var n := |pairs| - 1;
      var init := pairs[..n];
      FromPairsUnique(init);
      forall i | 0 <= i < |init| ensures init[i].0 != pairs[n].0 {
        assert init[i] == pairs[i];
      }
      PutNew(init, pairs[n].0, pairs[n].1);
      assert init + [pairs[n]] == pairs;
    }
  }

  /** When no two keys compress to the same key, compressing renames each key
    * in place and changes no value. */
  lemma CompressRenames(params: Dict<Json>)
    requires UniqueKeys(RenameKeys(params, CompressKey))
    ensures CompressParams(params) == RenameKeys(params, CompressKey)
    ensures forall i :: 0 <= i < |params| ==>
      CompressParams(params)[i] == (CompressKey(params[i].0), params[i].1)
  {
    FromPairsUnique(RenameKeys(params, CompressKey));
  }

  /** Distinct keys none of which is a short key compress without collisions. */
  lemma CompressUnique(params: Dict<Json>)
    requires UniqueKeys(params)
    requires forall i :: 0 <= i < |params| ==> params[i].0 !in ShortKeys
    ensures UniqueKeys(RenameKeys(params, CompressKey))
  {
    var r := RenameKeys(params, CompressKey);
    forall i, j | 0 <= i < j < |r| ensures r[i].0 != r[j].0 {
      CompressInjective(params[i].0, params[j].0);
    }
  }

  /** `thought[:50]`: a string or a list is cut to 50 items; slicing any
    * other value raises (`None`). */
  function ThoughtCut(v: Json): (r: Option<Json>)
    ensures r.Some? <==> v.JStr? || v.JArr?
    ensures v.JStr? ==> r == Some(JStr(Take(v.s, 50))) && |Take(v.s, 50)| <= 50
    ensures v.JArr? ==> r == Some(JArr(Take(v.items, 50))) && |Take(v.items, 50)| <= 50
  {
    match v
    case JStr(s) => Some(JStr(Take(s, 50)))
    case JArr(items) => Some(JArr(Take(items, 50)))
    case _ => None
  }

  /** `round(c, 2)`: a bool rounds to the int 0 or 1, an int or a float is
    * kept (float rounding is not modelled); any other value raises (`None`). */
  function Rounded(v: Json): (r: Option<Json>)
    ensures r.Some? <==> v.JInt? || v.JFloat? || v.JBool?
    ensures v.JInt? || v.JFloat? ==> r == Some(v)
    ensures v.JBool? ==> r == Some(JInt(if v.b then 1 else 0))
  {
    match v
    case JInt(_) => Some(v)
    case JFloat(_) => Some(v)
    case JBool(b) => Some(JInt(if b then 1 else 0))
    case _ => None
  }

  /** The compact object `{"t": …, "a": …, "p": …, "c": …}`, the thought cut to
    * 50 items and the confidence rounded; `None` where the cut or the
    * rounding raises. */
  function ToComptext(a: MobileAction): (r: Option<Dict<Json>>)
    ensures r.Some? <==> ThoughtCut(a.thought).Some? && Rounded(a.confidence).Some?
    ensures r.Some? ==> Keys(r.value) == ["t", "a", "p", "c"]
    ensures r.Some? ==> Get(r.value, "t") == ThoughtCut(a.thought) && Get(r.value, "c") == Rounded(a.confidence)
    ensures r.Some? ==> Get(r.value, "a") == Some(JStr(ActionName(a.action)))
  {
    match (ThoughtCut(a.thought), Rounded(a.confidence))
    case (Some(t), Some(c)) =>
      var d := [("t", t), ("a", JStr(ActionName(a.action))), ("p", JObj(CompressParams(a.params))), ("c", c)];
      CompactFields(t, a.action, CompressParams(a.params), c);
      Some(d)
    case _ => None
  }

  /** `from_comptext`: missing t, a, c default to "", done, 0.0 and any
    * present t and c are kept as they are; `None` where Python raises (an
    * unknown action, a p that is not an object). */
  function FromComptext(data: Dict<Json>): (r: Option<MobileAction>)
    ensures r.None? <==> ActionOf(GetOr(data, "a", JStr("done"))).None? || !GetOr(data, "p", JObj([])).JObj?
    ensures !HasKey(data, "a") && r.Some? ==> r.value.action == Done
    ensures r.Some? ==> Get(data, "a").Some? ==> Get(data, "a") == Some(JStr(ActionName(r.value.action)))
    ensures r.Some? ==> r.value.thought == (if HasKey(data, "t") then Get(data, "t").value else JStr(""))
    ensures r.Some? ==> r.value.confidence == (if HasKey(data, "c") then Get(data, "c").value else JFloat(0.0))
  {
    var p := GetOr(data, "p", JObj([]));
    match ActionOf(GetOr(data, "a", JStr("done")))
    case None => None
    case Some(action) =>
      if !p.JObj? then None
      else Some(MobileAction(GetOr(data, "t", JStr("")), action, ExpandParams(p.fields), GetOr(data, "c", JFloat(0.0))))
  }

  /** Encoding succeeds exactly when the thought can be cut and the
    * confidence rounded; decoding the result then restores the action and
    * the parameters, with the thought cut and the confidence rounded, when
    * the parameter keys are distinct and none is a short key. */
  lemma RoundTrip(a: MobileAction)
    requires UniqueKeys(a.params)
    requires forall i :: 0 <= i < |a.params| ==> a.params[i].0 !in ShortKeys
    ensures ToComptext(a).Some? <==> ThoughtCut(a.thought).Some? && Rounded(a.confidence).Some?
    ensures ToComptext(a).Some? ==>
      FromComptext(ToComptext(a).value)
        == Some(MobileAction(ThoughtCut(a.thought).value, a.action, a.params, Rounded(a.confidence).value))
  {
    if ToComptext(a).Some? {
      ExpandAfterCompress(a.params);
      DecodeObject(ThoughtCut(a.thought).value, a.action, CompressParams(a.params), Rounded(a.confidence).value);
    }
  }

  /** The usual case: a string thought and a numeric confidence come back as
    * the thought's first 50 characters and the same confidence. */
  lemma RoundTripText(thought: string, action: ActionType, params: Dict<Json>, confidence: Json)
    requires UniqueKeys(params)
    requires forall i :: 0 <= i < |params| ==> params[i].0 !in ShortKeys
    requires confidence.JInt? || confidence.JFloat?
    ensures var a := MobileAction(JStr(thought), action, params, confidence);
      ToComptext(a).Some? &&
      FromComptext(ToComptext(a).value) == Some(MobileAction(JStr(Take(thought, 50)), action, params, confidence))
  {
    RoundTrip(MobileAction(JStr(thought), action, params, confidence));
  }

  /** Expanding the compressed parameters gives the parameters back. */
  lemma ExpandAfterCompress(params: Dict<Json>)
    requires UniqueKeys(params)
    requires forall i :: 0 <= i < |params| ==> params[i].0 !in ShortKeys
    ensures ExpandParams(CompressParams(params)) == params
  {
    CompressUnique(params);
    CompressRenames(params);
    var back := RenameKeys(CompressParams(params), ExpandKey);
    forall i | 0 <= i < |params| ensures back[i] == params[i] {
      ExpandCompress(params[i].0);
    }
    assert back == params;
    FromPairsUnique(back);
  }

  /** The four keys of the compact object are distinct, and each reads back
    * its own value. */
  lemma CompactFields(t: Json, action: ActionType, p: Dict<Json>, c: Json)
    ensures var data := [("t", t), ("a", JStr(ActionName(action))), ("p", JObj(p)), ("c", c)];
      Keys(data) == ["t", "a", "p", "c"] && Get(data, "t") == Some(t) && Get(data, "a") == Some(JStr(ActionName(action)))
      && Get(data, "p") == Some(JObj(p)) && Get(data, "c") == Some(c)
  {
    var data := [("t", t), ("a", JStr(ActionName(action))), ("p", JObj(p)), ("c", c)];
    assert data[1..] == [("a", JStr(ActionName(action))), ("p", JObj(p)), ("c", c)];
    assert data[1..][1..] == [("p", JObj(p)), ("c", c)];
    assert data[1..][1..][1..] == [("c", c)];
    assert "t" != "a" && "t" != "p" && "t" != "c" && "a" != "p" && "a" != "c" && "p" != "c" by {
      assert "t"[0] == 't' && "a"[0] == 'a' && "p"[0] == 'p' && "c"[0] == 'c';
    }
    assert Get(data[1..][1..], "p") == Some(JObj(p));
    assert Get(data[1..][1..][1..], "c") == Some(c);
    assert Get(data[1..][1..], "c") == Some(c);
  }

  /** Decoding a compact object with a known action and an object p reads
    * each of its four fields. */
  lemma DecodeObject(t: Json, action: ActionType, p: Dict<Json>, c: Json)
    ensures FromComptext([("t", t), ("a", JStr(ActionName(action))), ("p", JObj(p)), ("c", c)])
      == Some(MobileAction(t, action, ExpandParams(p), c))
  {
    CompactFields(t, action, p, c);
    ActionNameRoundTrip(action);
  }

  // ---------------------------------------------------------------------------
  // Screen state and feedback

  /** An element line's type: B for a truthy clickable, else T for a truthy
    * text, else E. */
  function ScreenElementType(el: Dict<Json>): (r: string)
    ensures r == "B" <==> Truthy(GetOr(el, "clickable", JNull))
    ensures r == "T" <==> !Truthy(GetOr(el, "clickable", JNull)) && Truthy(GetOr(el, "text", JNull))
    ensures r in ["B", "T", "E"]
  {
    if Truthy(GetOr(el, "clickable", JNull)) then "B"
    else if Truthy(GetOr(el, "text", JNull)) then "T"
    else "E"
  }

  /** The value `text or content_description or "el"` picks. */
  function NameValue(el: Dict<Json>): (r: Json)
    ensures Truthy(r) || r == JStr("el")
  {
    var text := GetOr(el, "text", JNull);
    var desc := GetOr(el, "content_description", JNull);
    if Truthy(text) then text else if Truthy(desc) then desc else JStr("el")
  }

  /** The element name cut to 20 and formatted: a string's first 20
    * characters, a list's first 20 items rendered; `None` where slicing
    * raises (any other value). */
  function ScreenElementName(el: Dict<Json>): (r: Option<string>)
    ensures NameValue(el).JStr? ==> r.Some? && |r.value| <= 20 && |r.value| <= |NameValue(el).s|
    ensures NameValue(el).JStr? ==> r.Some? && r.value == NameValue(el).s[..|r.value|]
    ensures NameValue(el).JArr? ==> r == Some(PyStrOf(JArr(Take(NameValue(el).items, 20))))
    ensures r.None? <==> !NameValue(el).JStr? && !NameValue(el).JArr?
  {
    var v := NameValue(el);
    if v.JStr? then Some(Take(v.s, 20))
    else if v.JArr? then Some(PyStrOf(JArr(Take(v.items, 20))))
    else None
  }

  /** `"{idx}:{type}:{name}@{x},{y}"` with index, x and y defaulting to 0. */
  function ScreenElementLine(el: Dict<Json>): (r: Option<string>)
    ensures r.Some? <==> ScreenElementName(el).Some?
  {
    match ScreenElementName(el)
    case None => None
    case Some(name) =>
      Some(PyStrOf(GetOr(el, "index", JInt(0))) + ":" + ScreenElementType(el) + ":" + name
        + "@" + PyStrOf(GetOr(el, "center_x", JInt(0))) + "," + PyStrOf(GetOr(el, "center_y", JInt(0))))
  }

  function ScreenHeader(package: string): string
  {
    "App:" + (if package != "" then LastSegment(package, '.') else "?")
  }

  /** The lines of the compact screen: header, "Els:", then at most 15 elements. */
  function ScreenLines(package: string, elements: seq<Dict<Json>>): (r: Option<seq<string>>)
    ensures r.Some? ==> |r.value| == 2 + |Take(elements, 15)| <= 17
    ensures r.Some? ==> r.value[0] == ScreenHeader(package) && r.value[1] == "Els:"
    ensures r.Some? ==> forall i :: 0 <= i < |Take(elements, 15)| ==> ScreenElementLine(elements[i]) == Some(r.value[i + 2])
    ensures r.None? <==> exists i :: 0 <= i < |Take(elements, 15)| && ScreenElementLine(elements[i]).None?
  {
    var shown := Take(elements, 15);
    assert forall i :: 0 <= i < |shown| ==> shown[i] == elements[i];
    match MapAll(shown, ScreenElementLine)
    case None => None
    case Some(lines) => Some([ScreenHeader(package), "Els:"] + lines)
  }

  /** `ScreenStateSchema.to_comptext`. */
  function ScreenComptext(package: string, elements: seq<Dict<Json>>): Option<string>
  {
    match ScreenLines(package, elements)
    case None => None
    case Some(lines) => Some(Join(lines, "\n"))
  }

  /** With a package, the first line names its last dotted segment; without, "?". */
  lemma ScreenHeaderShape(package: string)
    ensures package == "" ==> ScreenHeader(package) == "App:?"
    ensures package != "" ==> EndsWith(package, LastSegment(package, '.')) && '.' !in LastSegment(package, '.')
  {
    if package != "" {
      LastSegmentIsSuffix(package, '.');
    }
  }

  /** `AgentResponseSchema.to_comptext`: the status line, then the screen when present. */
  function ResponseComptext(status: string, screen: Option<(string, seq<Dict<Json>>)>): (r: Option<string>)
    ensures screen.None? ==> r == Some("R:" + status)
    ensures screen.Some? ==> (r.Some? <==> ScreenComptext(screen.value.0, screen.value.1).Some?)
    ensures r.Some? ==> StartsWith(r.value, "R:" + status)
  {
    match screen
    case None => Some("R:" + status)
    case Some((package, elements)) =>
      match ScreenComptext(package, elements)
      case None => None
      case Some(text) => Some("R:" + status + "\n" + text)
  }

  // ---------------------------------------------------------------------------
  // Token reduction estimate

  datatype TokenReduction = TokenReduction(
    verboseChars: nat, comptextChars: nat, verboseTokensEst: nat, comptextTokensEst: nat, reductionPercent: real)

  /** `calculate_token_reduction`; `None` for an empty verbose text, where the
    * division raises ZeroDivisionError. The percentage is left unrounded. */
  function TokenReductionOf(verbose: string, comptext: string): (r: Option<TokenReduction>)
    ensures r.None? <==> verbose == []
    ensures r.Some? ==> r.value.verboseChars == |verbose| && r.value.comptextChars == |comptext|
    ensures r.Some? ==> r.value.verboseTokensEst == |verbose| / 4 && r.value.comptextTokensEst == |comptext| / 4
  {
    if |verbose| == 0 then None
    else
      var vt := |verbose| as real / 4.0;
      var ct := |comptext| as real / 4.0;
      Some(TokenReduction(|verbose|, |comptext|, |verbose| / 4, |comptext| / 4, (vt - ct) / vt * 100.0))
  }

  /** The estimate of four characters per token cancels: the reduction is the
    * character ratio, at most 100, and non-negative iff the compact text is no longer. */
  lemma ReductionIsCharRatio(verbose: string, comptext: string)
    requires verbose != []
    ensures TokenReductionOf(verbose, comptext).Some?
    ensures var p := TokenReductionOf(verbose, comptext).value.reductionPercent;
      p == (|verbose| - |comptext|) as real / |verbose| as real * 100.0 &&
      p <= 100.0 && (p >= 0.0 <==> |comptext| <= |verbose|)
  {
    var v := |verbose| as real;
    var c := |comptext| as real;
    var p := TokenReductionOf(verbose, comptext).value.reductionPercent;
    assert p == (v / 4.0 - c / 4.0) / (v / 4.0) * 100.0;
    assert (v / 4.0 - c / 4.0) / (v / 4.0) == (v - c) / v;
    RatioBounds(v, c);
  }
}
