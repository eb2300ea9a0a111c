// The UI-hierarchy parser of the mobile agent: nodes of a `uiautomator dump`
// become `UINode`s, which are filtered, ranked by relevance, re-indexed and
// rendered as compact `index:type:name@x,y` lines or as a verbose listing.
module UiParser {
  import opened Wrappers
  import opened PyStr
  import opened Seqs
  import Json

  datatype Bounds = Bounds(x1: int, y1: int, x2: int, y2: int)

  /** A decoded XML element: tag, attributes and children in document order. */
  datatype XmlElement = XmlElement(tag: string, attrs: map<string, string>, children: seq<XmlElement>)

  datatype UINode = UINode(
    index: int,
    text: string,
    resourceId: string,
    className: string,
    package: string,
    contentDesc: string,
    checkable: bool,
    checked: bool,
    clickable: bool,
    enabled: bool,
    focusable: bool,
    focused: bool,
    scrollable: bool,
    longClickable: bool,
    password: bool,
    selected: bool,
    visible: bool,
    bounds: Bounds)

  // ---------------------------------------------------------------------------
  // UINode properties

  /** The floor midpoint of the bounds, `((x1 + x2) // 2, (y1 + y2) // 2)`. */
  function Center(b: Bounds): (c: (int, int))
    ensures 2 * c.0 <= b.x1 + b.x2 < 2 * c.0 + 2
    ensures 2 * c.1 <= b.y1 + b.y2 < 2 * c.1 + 2
  {
    ((b.x1 + b.x2) / 2, (b.y1 + b.y2) / 2)
  }

  function Area(b: Bounds): int
  {
    (b.x2 - b.x1) * (b.y2 - b.y1)
  }

  /** `display_name`: text, then description, then the id's last "/" segment
    * (each cut to 30), then the class's last "." segment (cut to 20). */
  function DisplayName(n: UINode): (r: string)
    ensures |r| <= 30
  {
    if n.text != "" then Take(n.text, 30)
    else if n.contentDesc != "" then Take(n.contentDesc, 30)
    else if n.resourceId != "" then
      var parts := Split(n.resourceId, '/');
      if |parts| > 1 then Take(parts[|parts| - 1], 30) else Take(n.resourceId, 30)
    else Take(LastSegment(n.className, '.'), 20)
  }

  /** The name falls back from text to description to the id's part after its
    * last "/" to the class's part after its last ".", and never exceeds 30 chars. */
  lemma DisplayNamePriority(n: UINode)
    ensures n.text != "" ==> DisplayName(n) == Take(n.text, 30)
    ensures n.text == "" && n.contentDesc != "" ==> DisplayName(n) == Take(n.contentDesc, 30)
    ensures n.text == "" && n.contentDesc == "" && n.resourceId != "" ==>
      DisplayName(n) == Take(LastSegment(n.resourceId, '/'), 30) && '/' !in DisplayName(n)
    ensures n.text == "" && n.contentDesc == "" && n.resourceId == "" ==>
      |DisplayName(n)| <= 20 && '.' !in DisplayName(n)
  {
    if n.text == "" && n.contentDesc == "" {
      var r := DisplayName(n);
      if n.resourceId != "" {
        LastSegmentIsSuffix(n.resourceId, '/');
        var l := LastSegment(n.resourceId, '/');
        assert r == Take(l, 30);
        assert forall k :: 0 <= k < |r| ==> r[k] == l[k];
      } else {
        LastSegmentIsSuffix(n.className, '.');
        var l := LastSegment(n.className, '.');
        assert r == Take(l, 20);
        assert forall k :: 0 <= k < |r| ==> r[k] == l[k];
      }
    }
  }

  /** The class-name rules of `element_type`, tried in this order. */
  const TypeRules: seq<(seq<string>, string)> := [
    (["button"], "B"),
    (["edittext", "textfield"], "I"),
    (["checkbox"], "C"),
    (["switch", "toggle"], "S"),
    (["image"], "G"),
    (["text"], "T"),
    (["list", "recycler"], "L"),
    (["scroll"], "R")
  ]

  predicate AnyContains(s: string, pats: seq<string>)
  {
    exists p :: p in pats && Contains(s, p)
  }

  /** The code of the first rule with a pattern contained in `cl`. */
  function FirstRule(cl: string, rules: seq<(seq<string>, string)>): (r: Option<string>)
    ensures r.None? <==> forall i :: 0 <= i < |rules| ==> !AnyContains(cl, rules[i].0)
    ensures r.Some? ==> exists i :: (0 <= i < |rules| && r.value == rules[i].1 && AnyContains(cl, rules[i].0)
      && forall j :: 0 <= j < i ==> !AnyContains(cl, rules[j].0))
  {
    if rules == [] then None
    else if AnyContains(cl, rules[0].0) then Some(rules[0].1)
    else (
      var r := FirstRule(cl, rules[1..]);
      assert r.Some? ==> exists i :: (0 <= i < |rules[1..]| && r.value == rules[1..][i].1 && AnyContains(cl, rules[1..][i].0)
        && forall j :: 0 <= j < i ==> !AnyContains(cl, rules[1..][j].0));
      assert forall i :: 0 < i < |rules| ==> rules[i] == rules[1..][i - 1];
      r
    )
  }

  /** The rule table starts with the button rule and yields only letter codes. */
  lemma TypeRulesShape()
    ensures |TypeRules| > 0 && TypeRules[0].0 == ["button"]
    ensures forall i :: 0 <= i < |TypeRules| ==> TypeRules[i].1 in ["B", "I", "C", "S", "G", "T", "L", "R"]
    ensures forall i :: 0 <= i < |TypeRules| ==> TypeRules[i].1 != "K" && TypeRules[i].1 != "E"
  {
  }

  /** The one-letter type of a node: the first class rule that matches the
    * lower-cased class name, else K for a clickable node, else E. */
  function ElementType(n: UINode): (r: string)
    ensures r in ["B", "I", "C", "S", "G", "T", "L", "R", "K", "E"]
    ensures Contains(Lower(n.className), "button") ==> r == "B"
    ensures r == "K" <==> n.clickable && forall i :: 0 <= i < |TypeRules| ==> !AnyContains(Lower(n.className), TypeRules[i].0)
    ensures r == "E" <==> !n.clickable && forall i :: 0 <= i < |TypeRules| ==> !AnyContains(Lower(n.className), TypeRules[i].0)
  {
    var cl := Lower(n.className);
    RuleCode(cl);
    match FirstRule(cl, TypeRules)
    case Some(code) => code
    case None => if n.clickable then "K" else "E"
  }

  /** A matching rule gives one of the eight rule codes, B for a button. */
  lemma RuleCode(cl: string)
    ensures FirstRule(cl, TypeRules).Some? ==> FirstRule(cl, TypeRules).value in ["B", "I", "C", "S", "G", "T", "L", "R"]
    ensures FirstRule(cl, TypeRules).Some? ==> FirstRule(cl, TypeRules).value != "K" && FirstRule(cl, TypeRules).value != "E"
    ensures Contains(cl, "button") ==> FirstRule(cl, TypeRules) == Some("B")
  {
    TypeRulesShape();
    assert AnyContains(cl, TypeRules[0].0) <==> Contains(cl, "button");
    var r := FirstRule(cl, TypeRules);
    if r.Some? {
      var i :| 0 <= i < |TypeRules| && r.value == TypeRules[i].1 && AnyContains(cl, TypeRules[i].0)
        && forall j :: 0 <= j < i ==> !AnyContains(cl, TypeRules[j].0);
    }
  }

  lemma NothingInEmpty(p: string)
    requires p != ""
    ensures !Contains("", p)
  {
  }

  /** A clickable node with an empty class name is typed K, a non-clickable one E. */
  lemma EmptyClassType(n: UINode)
    requires n.className == ""
    ensures ElementType(n) == if n.clickable then "K" else "E"
  {
    assert Lower(n.className) == "";
    forall i | 0 <= i < |TypeRules| ensures !AnyContains("", TypeRules[i].0) {
      forall p | p in TypeRules[i].0 ensures !Contains("", p) {
        NothingInEmpty(p);
      }
    }
  }

  /** "<index>:<mid>@<x>,<y>" */
  function CompactLine(index: int, mid: string, x: int, y: int): string
  {
    IntToStr(index) + ":" + mid + "@" + IntToStr(x) + "," + IntToStr(y)
  }

  /** `to_comptext`: "<index>:<type>:<display_name>@<cx>,<cy>" */
  function NodeComptext(n: UINode): string
  {
    var c := Center(n.bounds);
    CompactLine(n.index, ElementType(n) + ":" + DisplayName(n), c.0, c.1)
  }

  lemma IntToStrNoChar(i: int, c: char)
    requires c != '-' && !IsDigit(c)
    ensures c !in IntToStr(i)
  {
    var s := IntToStr(i);
    if i < 0 {
      assert forall k :: 0 < k < |s| ==> s[k] == NatToStr(-i)[k - 1];
    }
  }

  /** A compact line gives back its index before the first ":", and its
    * centre after the last "@", whatever the name in between contains. */
  lemma NodeComptextFields(n: UINode)
    ensures SplitFirst(NodeComptext(n), ':') ==
      Some((IntToStr(n.index), ElementType(n) + ":" + DisplayName(n) + "@" + IntToStr(Center(n.bounds).0) + "," + IntToStr(Center(n.bounds).1)))
    ensures Json.ParseIntStr(IntToStr(n.index)) == Some(n.index)
    ensures LastSegment(NodeComptext(n), '@') == IntToStr(Center(n.bounds).0) + "," + IntToStr(Center(n.bounds).1)
  {
    var c := Center(n.bounds);
    LineFields(n.index, ElementType(n) + ":" + DisplayName(n), c.0, c.1);
    Json.IntRoundTrip(n.index);
  }

  lemma LineFields(index: int, mid: string, x: int, y: int)
    ensures SplitFirst(CompactLine(index, mid, x, y), ':') == Some((IntToStr(index), mid + "@" + IntToStr(x) + "," + IntToStr(y)))
    ensures LastSegment(CompactLine(index, mid, x, y), '@') == IntToStr(x) + "," + IntToStr(y)
  {
    var si, sx, sy := IntToStr(index), IntToStr(x), IntToStr(y);
    assert ':' !in si by { IntToStrNoChar(index, ':'); }
    assert '@' !in sx && '@' !in sy by {
      IntToStrNoChar(x, '@');
      IntToStrNoChar(y, '@');
    }
    LineOfParts(si, mid, sx, sy);
  }

  lemma LineOfParts(si: string, mid: string, sx: string, sy: string)
    requires ':' !in si && '@' !in sx && '@' !in sy
    ensures SplitFirst(si + ":" + mid + "@" + sx + "," + sy, ':') == Some((si, mid + "@" + sx + "," + sy))
    ensures LastSegment(si + ":" + mid + "@" + sx + "," + sy, '@') == sx + "," + sy
  {
    var tail := sx + "," + sy;
    assert '@' !in tail;
    TwoSeparators(si, mid, tail);
    AppendRegroup(si + ":" + mid + "@", sx, ",", sy);
    AppendRegroup(mid + "@", sx, ",", sy);
  }

  lemma TwoSeparators(idx: string, mid: string, tail: string)
    requires ':' !in idx && '@' !in tail
    ensures SplitFirst(idx + ":" + mid + "@" + tail, ':') == Some((idx, mid + "@" + tail))
    ensures LastSegment(idx + ":" + mid + "@" + tail, '@') == tail
  {
    var line := idx + ":" + mid + "@" + tail;
    assert line == idx + [':'] + (mid + "@" + tail);
    SplitFirstAt(line, idx, ':', mid + "@" + tail);
    assert line == (idx + ":" + mid) + ['@'] + tail;
    LastSegmentAfter(idx + ":" + mid, '@', tail);
  }

  lemma {:induction false} SplitFirstAt(s: string, a: string, c: char, b: string)
    requires s == a + [c] + b && c !in a
    ensures SplitFirst(s, c) == Some((a, b))
    decreases |a|
  {
    if a != [] {
      assert s[1..] == a[1..] + [c] + b;
      SplitFirstAt(s[1..], a[1..], c, b);
      assert s[0] == a[0] && a == [a[0]] + a[1..];
    } else {
      assert s[0] == c && s[1..] == b;
    }
  }

  lemma LastSegmentAfter(a: string, c: char, b: string)
    requires c !in b
    ensures LastSegment(a + [c] + b, c) == b
  {
    var s := a + [c] + b;
    LastSegmentIsSuffix(s, c);
    var l := LastSegment(s, c);
    forall k | |s| - |l| <= k < |s| ensures s[k] != c {
      assert s[k] == l[k - (|s| - |l|)];
    }
    forall k | |s| - |b| <= k < |s| ensures s[k] != c {
      assert s[k] == b[k - (|s| - |b|)];
    }
    assert s[|s| - |b| - 1] == c;
    assert |l| == |b|;
    assert s[|s| - |b|..] == b;
  }

  // ---------------------------------------------------------------------------
  // Bounds attribute: the prefix pattern `\[(\d+),(\d+)\]\[(\d+),(\d+)\]`

  /** Reads digits into `acc` up to `term`; `seen` records that a digit was read. */
  function DigitsThen(s: string, term: char, acc: nat, seen: bool): Option<(nat, string)>
    decreases |s|
  {
    if s == [] then None
    else if IsDigit(s[0]) then DigitsThen(s[1..], term, acc * 10 + DigitValue(s[0]), true)
    else if seen && s[0] == term then Some((acc, s[1..]))
    else None
  }

  /** One or more digits followed by `term`: the number and the text after `term`. */
  function NumberThen(s: string, term: char): Option<(nat, string)>
  {
    DigitsThen(s, term, 0, false)
  }

  /** A leading `[\d+,\d+]`: the two numbers and the rest of the text. */
  function MatchPair(s: string): Option<(nat, nat, string)>
  {
    if s == [] || s[0] != '[' then None
    else match NumberThen(s[1..], ',')
      case None => None
      case Some(a) =>
        match NumberThen(a.1, ']')
        case None => None
        case Some(b) => Some((a.0, b.0, b.1))
  }

  /** `BOUNDS_PATTERN.match(s)`: the four numbers of a leading "[x1,y1][x2,y2]". */
  function MatchBounds(s: string): Option<Bounds>
  {
    match MatchPair(s)
    case None => None
    case Some(p) =>
      match MatchPair(p.2)
      case None => None
      case Some(q) => Some(Bounds(p.0, p.1, q.0, q.1))
  }

  function PairText(x: nat, y: nat): string
  {
    "[" + NatToStr(x) + "," + NatToStr(y) + "]"
  }

  /** The text uiautomator writes for non-negative bounds. */
  function BoundsText(b: Bounds): string
    requires b.x1 >= 0 && b.y1 >= 0 && b.x2 >= 0 && b.y2 >= 0
  {
    PairText(b.x1, b.y1) + PairText(b.x2, b.y2)
  }

  /** Left-to-right decimal value of `d`, starting from `acc`. */
  function AccDigits(acc: nat, d: string): nat
    requires AllDigits(d)
    decreases |d|
  {
    if d == [] then acc else AccDigits(acc * 10 + DigitValue(d[0]), d[1..])
  }

  lemma {:induction false} AccDigitsSnoc(acc: nat, d: string, c: char)
    requires AllDigits(d) && IsDigit(c)
    ensures AllDigits(d + [c])
    ensures AccDigits(acc, d + [c]) == AccDigits(acc, d) * 10 + DigitValue(c)
    decreases |d|
  {
    assert forall i :: 0 <= i < |d + [c]| ==> (d + [c])[i] == if i < |d| then d[i] else c;
    if d != [] {
      assert (d + [c])[1..] == d[1..] + [c];
      AccDigitsSnoc(acc * 10 + DigitValue(d[0]), d[1..], c);
    }
  }

  lemma {:induction false} AccDigitsValue(d: string)
    requires AllDigits(d)
    ensures AccDigits(0, d) == DigitsValue(d)
    decreases |d|
  {
    if d != [] {
      var p := d[..|d| - 1];
      assert d == p + [d[|d| - 1]];
      AccDigitsValue(p);
      AccDigitsSnoc(0, p, d[|d| - 1]);
    }
  }

  lemma {:induction false} DigitsThenOf(d: string, term: char, rest: string, acc: nat, seen: bool)
    requires AllDigits(d) && !IsDigit(term) && (seen || d != [])
    ensures DigitsThen(d + [term] + rest, term, acc, seen) == Some((AccDigits(acc, d), rest))
    decreases |d|
  {
    var s := d + [term] + rest;
    if d == [] {
      assert s == [term] + rest;
    } else {
      assert s[1..] == d[1..] + [term] + rest;
      DigitsThenOf(d[1..], term, rest, acc * 10 + DigitValue(d[0]), true);
    }
  }

  lemma NumberThenOf(n: nat, term: char, rest: string)
    requires !IsDigit(term)
    ensures NumberThen(NatToStr(n) + [term] + rest, term) == Some((n, rest))
  {
    var d := NatToStr(n);
    DigitsThenOf(d, term, rest, 0, false);
    AccDigitsValue(d);
    NatToStrValue(n);
  }

  lemma MatchPairText(x: nat, y: nat, rest: string)
    ensures MatchPair(PairText(x, y) + rest) == Some((x, y, rest))
  {
    var s := PairText(x, y) + rest;
    var t1 := NatToStr(y) + "]" + rest;
    assert s[1..] == NatToStr(x) + [','] + t1;
    NumberThenOf(x, ',', t1);
    NumberThenOf(y, ']', rest);
  }

  /** Any text that starts with rendered bounds matches the pattern and gives them back. */
  lemma MatchBoundsText(b: Bounds, rest: string)
    requires b.x1 >= 0 && b.y1 >= 0 && b.x2 >= 0 && b.y2 >= 0
    ensures MatchBounds(BoundsText(b) + rest) == Some(b)
  {
    assert BoundsText(b) + rest == PairText(b.x1, b.y1) + (PairText(b.x2, b.y2) + rest);
    MatchPairText(b.x1, b.y1, PairText(b.x2, b.y2) + rest);
    MatchPairText(b.x2, b.y2, rest);
  }

  // ---------------------------------------------------------------------------
  // Building nodes from elements

  function Attr(e: XmlElement, k: string, default: string): string
  {
    if k in e.attrs then e.attrs[k] else default
  }

  predicate Flag(e: XmlElement, k: string, default: string)
  {
    Attr(e, k, default) == "true"
  }

  /** `_parse_node`'s node for one element. */
  function NodeOf(e: XmlElement, index: int): (n: UINode)
    ensures n.index == index
  {
    var b :=
      if "bounds" !in e.attrs then Bounds(0, 0, 0, 0)
      else match MatchBounds(e.attrs["bounds"])
        case Some(b) => b
        case None => Bounds(0, 0, 0, 0);
    UINode(
      index := index,
      text := Attr(e, "text", ""),
      resourceId := Attr(e, "resource-id", ""),
      className := Attr(e, "class", ""),
      package := Attr(e, "package", ""),
      contentDesc := Attr(e, "content-desc", ""),
      checkable := Flag(e, "checkable", "false"),
      checked := Flag(e, "checked", "false"),
      clickable := Flag(e, "clickable", "false"),
      enabled := Flag(e, "enabled", "true"),
      focusable := Flag(e, "focusable", "false"),
      focused := Flag(e, "focused", "false"),
      scrollable := Flag(e, "scrollable", "false"),
      longClickable := Flag(e, "long-clickable", "false"),
      password := Flag(e, "password", "false"),
      selected := Flag(e, "selected", "false"),
      visible := true,
      bounds := b)
  }

  /** Attributes are read with their defaults: a missing or unmatched bounds
    * attribute gives (0,0,0,0), a missing `enabled` means enabled, every other
    * missing flag means false. */
  lemma NodeOfDefaults(e: XmlElement, index: int)
    ensures NodeOf(e, index).bounds
      == match MatchBounds(Attr(e, "bounds", "[0,0][0,0]")) case Some(b) => b case None => Bounds(0, 0, 0, 0)
    ensures "bounds" !in e.attrs ==> NodeOf(e, index).bounds == Bounds(0, 0, 0, 0)
    ensures "enabled" !in e.attrs ==> NodeOf(e, index).enabled
    ensures "clickable" !in e.attrs ==> !NodeOf(e, index).clickable
    ensures NodeOf(e, index).text == (if "text" in e.attrs then e.attrs["text"] else "")
  {
    if "bounds" !in e.attrs {
      MatchBoundsText(Bounds(0, 0, 0, 0), "");
      assert BoundsText(Bounds(0, 0, 0, 0)) + "" == "[0,0][0,0]";
    }
  }

  /** Number of elements in a subtree. */
  function Size(e: XmlElement): nat
    decreases e, |e.children| + 1
  {
    1 + ChildrenSize(e, |e.children|)
  }

  /** Number of elements under the first `k` children of `e`. */
  function ChildrenSize(e: XmlElement, k: nat): nat
    requires k <= |e.children|
    decreases e, k
  {
    if k == 0 then 0 else ChildrenSize(e, k - 1) + Size(e.children[k - 1])
  }

  /** Pre-order list of nodes, numbered from `start`. */
  function Flatten(e: XmlElement, start: int): (r: seq<UINode>)
    ensures |r| == Size(e)
    decreases e, |e.children| + 1
  {
    [NodeOf(e, start)] + FlattenChildren(e, |e.children|, start + 1)
  }

  /** Pre-order list of the first `k` children's subtrees, numbered from `start`. */
  function FlattenChildren(e: XmlElement, k: nat, start: int): (r: seq<UINode>)
    requires k <= |e.children|
    ensures |r| == ChildrenSize(e, k)
    decreases e, k
  {
    if k == 0 then []
    else
      var front := FlattenChildren(e, k - 1, start);
      var last := Flatten(e.children[k - 1], start + ChildrenSize(e, k - 1));
      front + last
  }

  /** One more child's subtree extends the flattened children. */
  lemma ChildAppended(e: XmlElement, i: nat, start: int, at: int, prefix: seq<UINode>, mid: seq<UINode>, out: seq<UINode>)
    requires i < |e.children| && at == start + ChildrenSize(e, i)
    requires mid == prefix + FlattenChildren(e, i, start)
    requires out == mid + Flatten(e.children[i], at)
    ensures out == prefix + FlattenChildren(e, i + 1, start)
    ensures ChildrenSize(e, i + 1) == ChildrenSize(e, i) + Size(e.children[i])
  {
    var front := FlattenChildren(e, i, start);
    var last := Flatten(e.children[i], at);
    FlattenChildrenStep(e, i, start);
    AppendAssoc(prefix, front, last);
  }

  lemma FlattenUnfold(e: XmlElement, start: int)
    ensures Flatten(e, start) == [NodeOf(e, start)] + FlattenChildren(e, |e.children|, start + 1)
  {
  }

  lemma FlattenChildrenStep(e: XmlElement, i: nat, start: int)
    requires i < |e.children|
    ensures FlattenChildren(e, i + 1, start)
      == FlattenChildren(e, i, start) + Flatten(e.children[i], start + ChildrenSize(e, i))
    ensures ChildrenSize(e, i + 1) == ChildrenSize(e, i) + Size(e.children[i])
  {
  }

  // ---------------------------------------------------------------------------
  // Filtering

  /** `_filter_nodes`' test: enabled, large enough, and with content or interactive. */
  predicate Keep(n: UINode, minArea: int)
  {
    n.enabled && Area(n.bounds) >= minArea
    && (n.text != "" || n.contentDesc != "" || n.resourceId != "" || n.clickable || n.scrollable || n.checkable)
  }

  /** The keep test as a function value, for `Seqs.Filter`. */
  function KeepTest(minArea: int): UINode -> bool
  {
    n => Keep(n, minArea)
  }

  /** The nodes kept by the filtering comprehension, in document order. */
  function FilterSpec(nodes: seq<UINode>, minArea: int): seq<UINode>
  {
    Filter(nodes, KeepTest(minArea))
  }

  lemma {:induction false} FilterAppendOne(nodes: seq<UINode>, x: UINode, minArea: int)
    ensures FilterSpec(nodes + [x], minArea) == FilterSpec(nodes, minArea) + (if Keep(x, minArea) then [x] else [])
  {
    FilterAppend(nodes, [x], KeepTest(minArea));
    assert [x][1..] == [];
  }

  /** The filter keeps exactly the nodes that pass `Keep`, as an order-preserving subsequence. */
  lemma {:induction false} FilterSpecProperties(nodes: seq<UINode>, minArea: int)
    ensures forall n :: n in FilterSpec(nodes, minArea) <==> n in nodes && Keep(n, minArea)
    ensures IsSubsequence(FilterSpec(nodes, minArea), nodes)
  {
    FilterSubsequence(nodes, KeepTest(minArea));
  }

  // ---------------------------------------------------------------------------
  // Ranking

  /** Weighted relevance: clickable 100, scrollable 50, checkable 40, text 30, description 20, id 10. */
  function Score(n: UINode): nat
  {
    (if n.clickable then 100 else 0) + (if n.scrollable then 50 else 0) + (if n.checkable then 40 else 0)
    + (if n.text != "" then 30 else 0) + (if n.contentDesc != "" then 20 else 0) + (if n.resourceId != "" then 10 else 0)
  }

  /** The sort key `(-score, top, left)`. */
  function Key(n: UINode): (int, int, int)
  {
    (-(Score(n) as int), n.bounds.y1, n.bounds.x1)
  }

  predicate KeyLt(a: (int, int, int), b: (int, int, int))
  {
    a.0 < b.0 || (a.0 == b.0 && (a.1 < b.1 || (a.1 == b.1 && a.2 < b.2)))
  }

  predicate KeyLe(a: (int, int, int), b: (int, int, int))
  {
    KeyLt(a, b) || a == b
  }

  predicate SortedByKey(s: seq<UINode>)
  {
    forall i, j :: 0 <= i < j < |s| ==> KeyLe(Key(s[i]), Key(s[j]))
  }

  /** Inserts `x` before the first element whose key is not smaller. */
  function Insert(x: UINode, l: seq<UINode>): seq<UINode>
  {
    if l == [] then [x]
    else if KeyLt(Key(l[0]), Key(x)) then [l[0]] + Insert(x, l[1..])
    else [x] + l
  }

  /** `sorted(nodes, key=relevance_score)`: a stable insertion sort on the key. */
  function SortByRelevance(nodes: seq<UINode>): seq<UINode>
  {
    if nodes == [] then [] else Insert(nodes[0], SortByRelevance(nodes[1..]))
  }

  function WithKey(s: seq<UINode>, k: (int, int, int)): seq<UINode>
  {
    if s == [] then [] else (if Key(s[0]) == k then [s[0]] else []) + WithKey(s[1..], k)
  }

  lemma SortedTail(l: seq<UINode>)
    requires l != [] && SortedByKey(l)
    ensures SortedByKey(l[1..])
  {
    forall i, j | 0 <= i < j < |l[1..]| ensures KeyLe(Key(l[1..][i]), Key(l[1..][j])) {
      assert l[1..][i] == l[i + 1] && l[1..][j] == l[j + 1];
    }
  }

  lemma {:induction false} InsertMultiset(x: UINode, l: seq<UINode>)
    ensures multiset(Insert(x, l)) == multiset(l) + multiset{x}
  {
    if l != [] && KeyLt(Key(l[0]), Key(x)) {
      InsertMultiset(x, l[1..]);
      assert l == [l[0]] + l[1..];
    }
  }

  lemma {:induction false} InsertWithKey(x: UINode, l: seq<UINode>, k: (int, int, int))
    ensures WithKey(Insert(x, l), k) == (if Key(x) == k then [x] else []) + WithKey(l, k)
  {
    if l != [] && KeyLt(Key(l[0]), Key(x)) {
      InsertWithKey(x, l[1..], k);
      assert Insert(x, l)[1..] == Insert(x, l[1..]);
    } else if l != [] {
      assert Insert(x, l)[1..] == l;
    }
  }

  /** Every node of `s` has a key no smaller than `k`. */
  predicate AllAtLeast(k: (int, int, int), s: seq<UINode>)
  {
    forall j :: 0 <= j < |s| ==> KeyLe(k, Key(s[j]))
  }

  lemma ConsSorted(y: UINode, s: seq<UINode>)
    ensures SortedByKey([y] + s) <==> AllAtLeast(Key(y), s) && SortedByKey(s)
  {
    var r := [y] + s;
    if AllAtLeast(Key(y), s) && SortedByKey(s) {
      forall i, j | 0 <= i < j < |r| ensures KeyLe(Key(r[i]), Key(r[j])) {
        assert r[j] == s[j - 1];
        if i > 0 {
          assert r[i] == s[i - 1];
        }
      }
    }
    if SortedByKey(r) {
      forall j | 0 <= j < |s| ensures KeyLe(Key(y), Key(s[j])) {
        assert r[0] == y && r[j + 1] == s[j];
        assert KeyLe(Key(r[0]), Key(r[j + 1]));
      }
      forall i, j | 0 <= i < j < |s| ensures KeyLe(Key(s[i]), Key(s[j])) {
        assert r[i + 1] == s[i] && r[j + 1] == s[j];
      }
    }
  }

  lemma {:induction false} InsertAtLeast(k: (int, int, int), x: UINode, l: seq<UINode>)
    requires AllAtLeast(k, l) && KeyLe(k, Key(x))
    ensures AllAtLeast(k, Insert(x, l))
  {
    if l != [] && KeyLt(Key(l[0]), Key(x)) {
      assert AllAtLeast(k, l[1..]) by {
        forall j | 0 <= j < |l[1..]| ensures KeyLe(k, Key(l[1..][j])) {
          assert l[1..][j] == l[j + 1];
        }
      }
      InsertAtLeast(k, x, l[1..]);
      var r := Insert(x, l);
      forall j | 0 <= j < |r| ensures KeyLe(k, Key(r[j])) {
        if j > 0 {
          assert r[j] == Insert(x, l[1..])[j - 1];
        }
      }
    } else if l != [] {
      var r := Insert(x, l);
      forall j | 0 <= j < |r| ensures KeyLe(k, Key(r[j])) {
        if j > 0 {
          assert r[j] == l[j - 1];
        }
      }
    }
  }

  lemma {:induction false} InsertSorted(x: UINode, l: seq<UINode>)
    requires SortedByKey(l)
    ensures SortedByKey(Insert(x, l))
  {
    if l == [] {
    } else if KeyLt(Key(l[0]), Key(x)) {
      assert l == [l[0]] + l[1..];
      ConsSorted(l[0], l[1..]);
      InsertSorted(x, l[1..]);
      InsertAtLeast(Key(l[0]), x, l[1..]);
      ConsSorted(l[0], Insert(x, l[1..]));
    } else {
      assert AllAtLeast(Key(x), l) by {
        forall j | 0 <= j < |l| ensures KeyLe(Key(x), Key(l[j])) {
          assert KeyLe(Key(l[0]), Key(l[j]));
        }
      }
      ConsSorted(x, l);
    }
  }

  /** The ranking is sorted on the key, a permutation of its input, and
    * stable: nodes with equal keys keep their input order. */
  lemma {:induction false} SortProperties(nodes: seq<UINode>)
    ensures SortedByKey(SortByRelevance(nodes))
    ensures multiset(SortByRelevance(nodes)) == multiset(nodes)
    ensures forall k :: WithKey(SortByRelevance(nodes), k) == WithKey(nodes, k)
  {
    if nodes != [] {
      SortProperties(nodes[1..]);
      InsertSorted(nodes[0], SortByRelevance(nodes[1..]));
      InsertMultiset(nodes[0], SortByRelevance(nodes[1..]));
      forall k ensures WithKey(SortByRelevance(nodes), k) == WithKey(nodes, k) {
        InsertWithKey(nodes[0], SortByRelevance(nodes[1..]), k);
      }
      assert nodes == [nodes[0]] + nodes[1..];
    }
  }

  /** A node with a higher score is ranked before one with a lower score. */
  lemma HigherScoreFirst(nodes: seq<UINode>, i: nat, j: nat)
    requires i < |SortByRelevance(nodes)| && j < |SortByRelevance(nodes)|
    requires Score(SortByRelevance(nodes)[i]) > Score(SortByRelevance(nodes)[j])
    ensures i < j
  {
    SortProperties(nodes);
    var s := SortByRelevance(nodes);
    if j < i {
      assert false;
    }
  }

  // ---------------------------------------------------------------------------
  // parse

  /** Each node numbered by its position. */
  function Reindexed(s: seq<UINode>): (r: seq<UINode>)
    ensures |r| == |s|
    ensures forall i :: 0 <= i < |s| ==> r[i] == s[i].(index := i)
  {
    seq(|s|, i requires 0 <= i < |s| => s[i].(index := i))
  }

  /** What `parse` returns for a decoded document, or for malformed XML (`None`). */
  function ParseSpec(xml: Option<XmlElement>, minArea: int, maxElements: int): seq<UINode>
  {
    match xml
    case None => []
    case Some(root) => Reindexed(Take(SortByRelevance(FilterSpec(Flatten(root, 0), minArea)), maxElements))
  }

  /** Cutting a ranked list of kept nodes and renumbering it keeps both properties. */
  lemma RankedPrefix(s: seq<UINode>, n: int, minArea: int)
    requires SortedByKey(s)
    requires forall x :: x in s ==> Keep(x, minArea)
    ensures var r := Reindexed(Take(s, n));
      && (forall i :: 0 <= i < |r| ==> r[i].index == i && Keep(r[i], minArea))
      && SortedByKey(r)
  {
    var top := Take(s, n);
    var r := Reindexed(top);
    forall i | 0 <= i < |r| ensures Keep(r[i], minArea) && Key(r[i]) == Key(s[i]) {
      assert r[i] == s[i].(index := i);
      assert s[i] in s;
    }
    forall i, j | 0 <= i < j < |r| ensures KeyLe(Key(r[i]), Key(r[j])) {
      assert KeyLe(Key(s[i]), Key(s[j]));
    }
  }

  /** `parse` returns at most `max_elements` kept nodes, numbered 0..n-1, ranked by relevance. */
  lemma ParseProperties(xml: Option<XmlElement>, minArea: int, maxElements: int)
    ensures var r := ParseSpec(xml, minArea, maxElements);
      && (xml.None? ==> r == [])
      && (0 <= maxElements ==> |r| <= maxElements)
      && (forall i :: 0 <= i < |r| ==> r[i].index == i && Keep(r[i], minArea))
      && SortedByKey(r)
  {
    if xml.Some? {
      var kept := FilterSpec(Flatten(xml.value, 0), minArea);
      FilterSpecProperties(Flatten(xml.value, 0), minArea);
      SortProperties(kept);
      var sorted := SortByRelevance(kept);
      assert forall x :: x in sorted ==> x in multiset(kept);
      RankedPrefix(sorted, maxElements, minArea);
    }
  }

  class UITreeParser {
    var minArea: int
    var maxElements: int
    var indexCounter: int

    constructor (minArea: int := 100, maxElements: int := 50)
      ensures this.minArea == minArea && this.maxElements == maxElements && indexCounter == 0
    {
      this.minArea := minArea;
      this.maxElements := maxElements;
      indexCounter := 0;
    }

    /** Appends the subtree of `e` in pre-order, numbering nodes from the counter. */
    method ParseNode(e: XmlElement, nodes: seq<UINode>) returns (out: seq<UINode>)
      modifies this`indexCounter
      ensures out == nodes + Flatten(e, old(indexCounter))
      ensures indexCounter == old(indexCounter) + Size(e)
      decreases e, 1
    {
      var start := indexCounter;
      var node := NodeOf(e, indexCounter);
      indexCounter := indexCounter + 1;
      out := ParseChildren(e, nodes + [node]);
      FlattenUnfold(e, start);
      AppendAssoc(nodes, [node], FlattenChildren(e, |e.children|, start + 1));
    }

    /** Appends the subtrees of `e`'s children after `prefix`. */
    method ParseChildren(e: XmlElement, prefix: seq<UINode>) returns (out: seq<UINode>)
      modifies this`indexCounter
      ensures out == prefix + FlattenChildren(e, |e.children|, old(indexCounter))
      ensures indexCounter == old(indexCounter) + ChildrenSize(e, |e.children|)
      decreases e, 0
    {
      var start := indexCounter;
      out := prefix;
      var i := 0;
      while i < |e.children|
        invariant 0 <= i <= |e.children|
        invariant out == prefix + FlattenChildren(e, i, start)
        invariant indexCounter == start + ChildrenSize(e, i)
      {
        var mid := out;
        ghost var at := indexCounter;
        out := ParseNode(e.children[i], out);
        ChildAppended(e, i, start, at, prefix, mid, out);
        i := i + 1;
      }
    }

    method FilterNodes(nodes: seq<UINode>) returns (filtered: seq<UINode>)
      ensures filtered == FilterSpec(nodes, minArea)
      ensures forall n :: n in filtered <==> n in nodes && Keep(n, minArea)
    {
      filtered := [];
      var i := 0;
      while i < |nodes|
        invariant 0 <= i <= |nodes|
        invariant filtered == FilterSpec(nodes[..i], minArea)
      {
        FilterAppendOne(nodes[..i], nodes[i], minArea);
        assert nodes[..i + 1] == nodes[..i] + [nodes[i]];
        if Keep(nodes[i], minArea) {
          filtered := filtered + [nodes[i]];
        }
        i := i + 1;
      }
      assert nodes[..i] == nodes;
      FilterSpecProperties(nodes, minArea);
    }

    method Parse(xml: Option<XmlElement>) returns (r: seq<UINode>)
      modifies this`indexCounter
      ensures r == ParseSpec(xml, minArea, maxElements)
      ensures indexCounter == if xml.None? then 0 else Size(xml.value)
    {
      indexCounter := 0;
      if xml.None? {
        return [];
      }
      var nodes := ParseNode(xml.value, []);
      var filtered := FilterNodes(nodes);
      var sorted := SortByRelevance(filtered);
      var top := Take(sorted, maxElements);
      var i := 0;
      while i < |top|
        invariant 0 <= i <= |top| && |top| == |Take(sorted, maxElements)|
        invariant forall j :: 0 <= j < i ==> top[j] == Take(sorted, maxElements)[j].(index := j)
        invariant forall j :: i <= j < |top| ==> top[j] == Take(sorted, maxElements)[j]
      {
        top := top[i := top[i].(index := i)];
        i := i + 1;
      }
      assert nodes == Flatten(xml.value, 0);
      assert top == Reindexed(Take(sorted, maxElements));
      r := top;
    }
  }

  // ---------------------------------------------------------------------------
  // Rendering

  /** The "App:" and "Act:" lines, each only when its name is non-empty. */
  function ComptextHeader(package: string, activity: string): (h: seq<string>)
    ensures |h| == (if package != "" then 1 else 0) + (if activity != "" then 1 else 0)
    ensures package != "" ==> h[0] == "App:" + LastSegment(package, '.')
    ensures activity != "" ==> h[|h| - 1] == "Act:" + LastSegment(activity, '.')
  {
    (if package != "" then ["App:" + LastSegment(package, '.')] else [])
    + (if activity != "" then ["Act:" + LastSegment(activity, '.')] else [])
  }

  function NodeLines(nodes: seq<UINode>): (lines: seq<string>)
    ensures |lines| == |nodes|
    ensures forall i :: 0 <= i < |nodes| ==> lines[i] == NodeComptext(nodes[i])
  {
    seq(|nodes|, i requires 0 <= i < |nodes| => NodeComptext(nodes[i]))
  }

  /** The lines of `to_comptext_format`: the header, "Els:", one line per node in order. */
  function ComptextLines(nodes: seq<UINode>, package: string, activity: string): (lines: seq<string>)
    ensures var h := |ComptextHeader(package, activity)|;
      |lines| == h + 1 + |nodes| && lines[..h] == ComptextHeader(package, activity) && lines[h] == "Els:"
      && lines[h + 1..] == NodeLines(nodes)
  {
    var h := ComptextHeader(package, activity);
    var r := h + ["Els:"] + NodeLines(nodes);
    assert r[..|h|] == h && r[|h| + 1..] == NodeLines(nodes);
    r
  }

  function ToComptextFormat(nodes: seq<UINode>, package: string, activity: string): string
  {
    Join(ComptextLines(nodes, package, activity), "\n")
  }

  function TupleStr(xs: seq<int>): string
  {
    "(" + Join(seq(|xs|, i requires 0 <= i < |xs| => IntToStr(xs[i])), ", ") + ")"
  }

  /** One line of `to_verbose_format`. */
  function VerboseLine(n: UINode): (line: string)
    ensures StartsWith(line, "[" + IntToStr(n.index) + "]")
  {
    var c := Center(n.bounds);
    var b := n.bounds;
    var head := "[" + IntToStr(n.index) + "]";
    var fields := (if n.text != "" then ["text=\"" + n.text + "\""] else [])
      + (if n.contentDesc != "" then ["desc=\"" + n.contentDesc + "\""] else [])
      + (if n.resourceId != "" then ["id=\"" + LastSegment(n.resourceId, '/') + "\""] else [])
      + ["type=" + ElementType(n), "clickable=" + BoolToStr(n.clickable),
         "center=" + TupleStr([c.0, c.1]), "bounds=" + TupleStr([b.x1, b.y1, b.x2, b.y2])];
    JoinLeads(head, fields, " ");
    Join([head] + fields, " ")
  }

  /** The lines of `to_verbose_format`: a five-line header, then one line per node. */
  function VerboseLines(nodes: seq<UINode>, package: string, activity: string): (lines: seq<string>)
    ensures |lines| == 5 + |nodes|
    ensures lines[0] == "Package: " + package && lines[1] == "Activity: " + activity && lines[2] == ""
    ensures lines[3] == "UI Elements (" + NatToStr(|nodes|) + " total):"
    ensures |lines[4]| == 60 && forall k :: 0 <= k < 60 ==> lines[4][k] == '-'
    ensures forall i :: 0 <= i < |nodes| ==> lines[5 + i] == VerboseLine(nodes[i])
  {
    ["Package: " + package, "Activity: " + activity, "", "UI Elements (" + NatToStr(|nodes|) + " total):",
     seq(60, _ => '-')]
    + seq(|nodes|, i requires 0 <= i < |nodes| => VerboseLine(nodes[i]))
  }

  function ToVerboseFormat(nodes: seq<UINode>, package: string, activity: string): string
  {
    Join(VerboseLines(nodes, package, activity), "\n")
  }

  /** `parse_ui_dump`: a parser with the default limits, then the compact or
    * the verbose rendering without app context. */
  method ParseUiDump(xml: Option<XmlElement>, comptext: bool) returns (nodes: seq<UINode>, formatted: string)
    ensures nodes == ParseSpec(xml, 100, 50)
    ensures |nodes| <= 50 && forall i :: 0 <= i < |nodes| ==> nodes[i].index == i && Keep(nodes[i], 100)
    ensures comptext ==> formatted == ToComptextFormat(nodes, "", "")
    ensures !comptext ==> formatted == ToVerboseFormat(nodes, "", "")
  {
    var parser := new UITreeParser();
    nodes := parser.Parse(xml);
    ParseProperties(xml, 100, 50);
    if comptext {
      formatted := ToComptextFormat(nodes, "", "");
    } else {
      formatted := ToVerboseFormat(nodes, "", "");
    }
  }
}
