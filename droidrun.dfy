// The device-side element model and the ADB wrapper: elements and screens,
// the `adb devices` listing, the hierarchy dump reader and the actions.
// ADB itself is outside the model: every shell call is an outcome given as
// a parameter (`None` when it succeeded, the error text when it raised).
module Droidrun {
  import opened Wrappers
  import opened PyStr
  import opened Seqs
  import Json
  import UiParser

  datatype ActionType = Tap | Swipe | Type | Key | Back | Home | Recent | Screenshot | LaunchApp | Wait

  datatype UIElement = UIElement(
    resourceId: string,
    className: string,
    text: string,
    contentDesc: string,
    bounds: seq<int>,
    clickable: bool,
    scrollable: bool,
    focusable: bool,
    enabled: bool,
    selected: bool,
    checkable: bool,
    checked: bool,
    index: int,
    package: string)

  /** `center`: the floor midpoint; `None` where unpacking a bounds tuple
    * that does not have four parts raises. */
  function Center(e: UIElement): (c: Option<(int, int)>)
    ensures c.Some? <==> |e.bounds| == 4
  {
    if |e.bounds| != 4 then None
    else Some(((e.bounds[0] + e.bounds[2]) / 2, (e.bounds[1] + e.bounds[3]) / 2))
  }

  /** The centre is the midpoint of the bounds, rounded down. */
  lemma CenterMidpoint(e: UIElement)
    requires |e.bounds| == 4
    ensures var c := Center(e).value;
      2 * c.0 <= e.bounds[0] + e.bounds[2] < 2 * c.0 + 2 && 2 * c.1 <= e.bounds[1] + e.bounds[3] < 2 * c.1 + 2
  {
  }

  /** `display_name`: text, else description, else the id after its last "/",
    * else the class name after its last ".". */
  function DisplayName(e: UIElement): string
  {
    if e.text != "" then e.text
    else if e.contentDesc != "" then e.contentDesc
    else if e.resourceId != "" then LastSegment(e.resourceId, '/')
    else LastSegment(e.className, '.')
  }

  /** The name comes from the first non-empty of text, description and id, and
    * from an id or a class name it is the part after the last separator. */
  lemma DisplayNamePriority(e: UIElement)
    ensures e.text != "" ==> DisplayName(e) == e.text
    ensures e.text == "" && e.contentDesc != "" ==> DisplayName(e) == e.contentDesc
    ensures e.text == "" && e.contentDesc == "" && e.resourceId != "" ==>
      EndsWith(e.resourceId, DisplayName(e)) && '/' !in DisplayName(e)
      && (DisplayName(e) == e.resourceId || e.resourceId[|e.resourceId| - |DisplayName(e)| - 1] == '/')
    ensures e.text == "" && e.contentDesc == "" && e.resourceId == "" ==>
      EndsWith(e.className, DisplayName(e)) && '.' !in DisplayName(e)
  {
    if e.text == "" && e.contentDesc == "" {
      if e.resourceId != "" {
        var d := LastSegment(e.resourceId, '/');
        assert DisplayName(e) == d;
        LastSegmentIsSuffix(e.resourceId, '/');
        if |d| == |e.resourceId| {
          assert d == e.resourceId[0..];
        }
      } else {
        assert DisplayName(e) == LastSegment(e.className, '.');
        LastSegmentIsSuffix(e.className, '.');
      }
    }
  }

  datatype ScreenState = ScreenState(
    package: string,
    activity: string,
    elements: seq<UIElement>,
    screenshotPath: Option<string>,
    screenshotBase64: Option<string>,
    rawXml: Option<string>,
    timestamp: real)

  /** `clickable_elements` */
  function ClickableElements(st: ScreenState): (r: seq<UIElement>)
    ensures forall e :: e in r <==> e in st.elements && e.clickable
    ensures IsSubsequence(r, st.elements)
  {
    FilterSubsequence(st.elements, (e: UIElement) => e.clickable);
    Filter(st.elements, (e: UIElement) => e.clickable)
  }

  predicate IsInputField(e: UIElement)
  {
    Contains(e.className, "EditText") || Contains(e.className, "TextField")
  }

  /** `input_fields` */
  function InputFields(st: ScreenState): (r: seq<UIElement>)
    ensures forall e :: e in r <==> e in st.elements && IsInputField(e)
    ensures IsSubsequence(r, st.elements)
  {
    FilterSubsequence(st.elements, IsInputField);
    Filter(st.elements, IsInputField)
  }

  /** The test `find_by_text` applies with the lower-cased query `q`. */
  predicate TextMatches(e: UIElement, q: string, partial: bool)
  {
    if partial then Contains(Lower(e.text), q) || Contains(Lower(e.contentDesc), q)
    else Lower(e.text) == q || Lower(e.contentDesc) == q
  }

  /** `find_by_text`: case-insensitive substring (partial) or equality match on
    * text or description, in screen order. */
  function FindByText(st: ScreenState, query: string, partial: bool): (r: seq<UIElement>)
    ensures forall e :: e in r <==> e in st.elements && TextMatches(e, Lower(query), partial)
    ensures IsSubsequence(r, st.elements)
  {
    var q := Lower(query);
    FilterSubsequence(st.elements, (e: UIElement) => TextMatches(e, q, partial));
    Filter(st.elements, (e: UIElement) => TextMatches(e, q, partial))
  }

  /** `find_by_id`: the first element whose id contains the query. */
  function FindById(els: seq<UIElement>, query: string): (r: Option<UIElement>)
    ensures r.None? <==> forall k :: 0 <= k < |els| ==> !Contains(els[k].resourceId, query)
    ensures r.Some? ==> exists k :: 0 <= k < |els| && els[k] == r.value && Contains(els[k].resourceId, query) &&
                                    forall j :: 0 <= j < k ==> !Contains(els[j].resourceId, query)
  {
    if els == [] then None
    else if Contains(els[0].resourceId, query) then Some(els[0])
    else
      var r := FindById(els[1..], query);
      assert forall k :: 0 < k < |els| ==> els[k] == els[1..][k - 1];
      assert r.Some? ==> exists k :: 0 < k < |els| && els[k] == r.value && Contains(els[k].resourceId, query) &&
                                     forall j :: 0 <= j < k ==> !Contains(els[j].resourceId, query) by {
        if r.Some? {
          var k :| 0 <= k < |els[1..]| && els[1..][k] == r.value && Contains(els[1..][k].resourceId, query)
            && forall j :: 0 <= j < k ==> !Contains(els[1..][j].resourceId, query);
          assert els[k + 1] == r.value;
          forall j | 0 <= j < k + 1 ensures !Contains(els[j].resourceId, query) {
            if j > 0 {
              assert els[j] == els[1..][j - 1];
            }
          }
        }
      }
      r
  }

  // ---------------------------------------------------------------------------
  // to_compact_dict

  datatype CompactElement = CompactElement(i: int, n: string, c: (int, int), t: string)

  datatype CompactScreen = CompactScreen(pkg: string, act: string, els: seq<CompactElement>)

  /** The last "."-segment of a non-empty name, "" for an empty one. */
  function ShortName(s: string): string
  {
    if s != "" then LastSegment(s, '.') else ""
  }

  function CompactType(e: UIElement): string
  {
    if e.clickable then "btn" else if e.text != "" then "txt" else "el"
  }

  /** The compact entries of `els`, numbered from `from`; `None` if a centre raises. */
  function CompactElements(els: seq<UIElement>, from: int): (r: Option<seq<CompactElement>>)
    ensures r.Some? <==> forall k :: 0 <= k < |els| ==> |els[k].bounds| == 4
    ensures r.Some? ==> |r.value| == |els|
    ensures r.Some? ==> forall k :: 0 <= k < |els| ==>
        r.value[k] == CompactElement(from + k, Take(DisplayName(els[k]), 30), Center(els[k]).value, CompactType(els[k]))
  {
    if els == [] then Some([])
    else match Center(els[0])
      case None => None
      case Some(c) =>
        assert forall k :: 0 < k < |els| ==> els[k] == els[1..][k - 1];
        match CompactElements(els[1..], from + 1)
        case None => None
        case Some(rest) =>
          var first := CompactElement(from, Take(DisplayName(els[0]), 30), c, CompactType(els[0]));
          CompactCons(els, from, first, rest);
          Some([first] + rest)
  }

  /** The entry of the first element, then those of the rest numbered one on. */
  lemma CompactCons(els: seq<UIElement>, from: int, first: CompactElement, rest: seq<CompactElement>)
    requires els != [] && forall k :: 0 <= k < |els| ==> |els[k].bounds| == 4
    requires first == CompactElement(from, Take(DisplayName(els[0]), 30), Center(els[0]).value, CompactType(els[0]))
    requires |rest| == |els| - 1
    requires forall k :: 0 <= k < |rest| ==>
      rest[k] == CompactElement(from + 1 + k, Take(DisplayName(els[1..][k]), 30), Center(els[1..][k]).value, CompactType(els[1..][k]))
    ensures forall k :: 0 <= k < |els| ==>
      ([first] + rest)[k] == CompactElement(from + k, Take(DisplayName(els[k]), 30), Center(els[k]).value, CompactType(els[k]))
  {
    forall k | 0 < k < |els|
      ensures ([first] + rest)[k]
              == CompactElement(from + k, Take(DisplayName(els[k]), 30), Center(els[k]).value, CompactType(els[k]))
    {
      assert els[1..][k - 1] == els[k];
    }
  }

  /** `to_compact_dict`: at most 20 entries numbered from 0, names cut to 30. */
  function ToCompactDict(st: ScreenState): (r: Option<CompactScreen>)
    ensures r.Some? <==> forall k :: 0 <= k < |st.elements| && k < 20 ==> |st.elements[k].bounds| == 4
    ensures r.Some? ==> r.value.pkg == ShortName(st.package) && r.value.act == ShortName(st.activity)
    ensures r.Some? ==> |r.value.els| == (if |st.elements| < 20 then |st.elements| else 20)
    ensures r.Some? ==> forall k :: 0 <= k < |r.value.els| ==>
      r.value.els[k].i == k && |r.value.els[k].n| <= 30 && r.value.els[k].c == Center(st.elements[k]).value
      && r.value.els[k].t == CompactType(st.elements[k])
  {
    var top := Take(st.elements, 20);
    match CompactElements(top, 0)
    case None => None
    case Some(els) => Some(CompactScreen(ShortName(st.package), ShortName(st.activity), els))
  }

  // ---------------------------------------------------------------------------
  // The `adb devices` listing

  /** The serials of the lines that report a ready device. */
  function SerialsOf(lines: seq<string>): (r: seq<string>)
    ensures |r| <= |lines|
    ensures forall d :: d in r ==> '\t' !in d
  {
    if lines == [] then []
    else
      var parts := Split(lines[0], '\t');
      SplitJoin(lines[0], '\t');
      (if Contains(lines[0], "\tdevice") then [parts[0]] else []) + SerialsOf(lines[1..])
  }

  /** The devices `connect` finds: the header line is skipped. */
  function Devices(output: string): seq<string>
  {
    SerialsOf(Split(Strip(output), '\n')[1..])
  }

  const DevicesHeader := "List of devices attached"

  function DeviceLines(serials: seq<string>): (r: seq<string>)
    ensures |r| == |serials|
    ensures forall k :: 0 <= k < |serials| ==> r[k] == serials[k] + "\tdevice"
  {
    seq(|serials|, k requires 0 <= k < |serials| => serials[k] + "\tdevice")
  }

  /** What `adb devices` prints for the given ready devices. */
  function Listing(serials: seq<string>): string
  {
    Join([DevicesHeader] + DeviceLines(serials), "\n")
  }

  lemma {:induction false} SerialsOfLines(serials: seq<string>)
    requires forall d :: d in serials ==> '\t' !in d
    ensures SerialsOf(DeviceLines(serials)) == serials
  {
    if serials != [] {
      var l := DeviceLines(serials);
      assert serials[0] in serials;
      DeviceLineSerial(serials[0]);
      assert l[1..] == DeviceLines(serials[1..]);
      SerialsOfLines(serials[1..]);
      assert serials == [serials[0]] + serials[1..];
    }
  }

  /** A ready device's line reports it, and its serial is the part before the tab. */
  lemma DeviceLineSerial(d: string)
    requires '\t' !in d
    ensures Contains(d + "\tdevice", "\tdevice") && Split(d + "\tdevice", '\t')[0] == d
  {
    assert d + "\tdevice" == d + ['\t'] + "device";
    SplitCons(d, "device", '\t');
    ContainsAt(d + "\tdevice", "\tdevice", |d|);
  }

  lemma JoinHead(parts: seq<string>, sep: string)
    requires parts != []
    ensures StartsWith(Join(parts, sep), parts[0])
  {
    if |parts| > 1 {
      var j := Join(parts, sep);
      assert j == parts[0] + (sep + Join(parts[1..], sep));
    }
  }

  /** A listing starts with the header's "L" and ends with "d" or "e". */
  lemma ListingEdges(serials: seq<string>)
    ensures var s := Listing(serials);
      s != [] && s[0] == 'L' && s[|s| - 1] in "de"
  {
    var parts := [DevicesHeader] + DeviceLines(serials);
    JoinHead(parts, "\n");
    JoinLast(parts, "\n");
    var s := Listing(serials);
    var last := parts[|parts| - 1];
    assert last[|last| - 1] in "de";
    assert s[|s| - 1] == s[|s| - |last|..][|last| - 1];
    assert s[0] == s[..|DevicesHeader|][0];
  }

  lemma ListingLines(serials: seq<string>)
    requires forall d :: d in serials ==> '\n' !in d
    ensures forall p :: p in [DevicesHeader] + DeviceLines(serials) ==> '\n' !in p
  {
    forall p | p in [DevicesHeader] + DeviceLines(serials) ensures '\n' !in p {
      if p != DevicesHeader {
        var k :| 0 <= k < |serials| && p == DeviceLines(serials)[k];
        assert p == serials[k] + "\tdevice";
      }
    }
  }

  /** Reading back a listing gives exactly its devices, in order. */
  lemma DevicesOfListing(serials: seq<string>)
    requires forall d :: d in serials ==> '\t' !in d && '\n' !in d
    ensures Devices(Listing(serials)) == serials
  {
    var parts := [DevicesHeader] + DeviceLines(serials);
    ListingEdges(serials);
    StripNoEdgeSpace(Listing(serials));
    ListingLines(serials);
    SplitJoinInverse(parts, '\n');
    assert Split(Strip(Listing(serials)), '\n')[1..] == DeviceLines(serials);
    SerialsOfLines(serials);
  }

  // ---------------------------------------------------------------------------
  // Reading the hierarchy dump

  /** Pre-order list of elements, as `root.iter()` visits them. */
  function Preorder(e: UiParser.XmlElement): seq<UiParser.XmlElement>
    decreases e, |e.children| + 1
  {
    [e] + PreorderChildren(e, |e.children|)
  }

  function PreorderChildren(e: UiParser.XmlElement, k: nat): seq<UiParser.XmlElement>
    requires k <= |e.children|
    decreases e, k
  {
    if k == 0 then [] else PreorderChildren(e, k - 1) + Preorder(e.children[k - 1])
  }

  /** `tuple(int(x) for x in s.replace("][", ",").strip("[]").split(","))` */
  function ParseBounds(s: string): Option<seq<int>>
  {
    MapAll(Split(StripChars(ReplaceStr(s, "][", ","), {'[', ']'}), ','), Json.ParseIntStr)
  }

  /** A number's text: non-empty, with no bracket and no comma. */
  predicate Plain(x: string)
  {
    x != [] && '[' !in x && ']' !in x && ',' !in x
  }

  lemma NumberTextPlain(n: nat)
    ensures Plain(NatToStr(n))
  {
    var d := NatToStr(n);
    assert forall k :: 0 <= k < |d| ==> IsDigit(d[k]);
  }

  /** Replacing "][" joins two bracketed pairs with a comma. */
  lemma ReplacePairs(head: string, mid: string)
    requires ']' !in head && ']' !in mid
    ensures ReplaceStr(head + "][" + mid + "]", "][", ",") == head + "," + mid + "]"
  {
    var rest := "][" + (mid + "]");
    assert head + "][" + mid + "]" == head + rest;
    ReplaceStrPrefix(head, rest, "][", ",");
    ReplaceStrAt("][", mid + "]", ",");
    assert ReplaceStr(mid + "]", "][", ",") == mid + "]" by {
      ReplaceStrPrefix(mid, "]", "][", ",");
      ReplaceStrNoStart("]", "][", ",");
    }
  }

  lemma SplitFour(a: string, b: string, c: string, d: string)
    requires Plain(a) && Plain(b) && Plain(c) && Plain(d)
    ensures Split(FieldsText(a, b, c, d), ',') == [a, b, c, d]
  {
    assert FieldsText(a, b, c, d) == a + [','] + (b + [','] + (c + [','] + d));
    SplitCons(a, b + [','] + (c + [','] + d), ',');
    SplitCons(b, c + [','] + d, ',');
    SplitCons(c, d, ',');
    SplitNoSep(d, ',');
  }

  function PairsText(a: string, b: string, c: string, d: string): string
  {
    "[" + a + "," + b + "][" + c + "," + d + "]"
  }

  function FieldsText(a: string, b: string, c: string, d: string): string
  {
    a + "," + b + "," + c + "," + d
  }

  lemma PairsReplaced(a: string, b: string, c: string, d: string)
    requires Plain(a) && Plain(b) && Plain(c) && Plain(d)
    ensures ReplaceStr(PairsText(a, b, c, d), "][", ",") == ['['] + FieldsText(a, b, c, d) + [']']
  {
    var head := "[" + a + "," + b;
    var mid := c + "," + d;
    PairsShape(a, b, c, d);
    ReplacePairs(head, mid);
    FieldsShape(a, b, c, d);
  }

  lemma PairsShape(a: string, b: string, c: string, d: string)
    ensures PairsText(a, b, c, d) == ("[" + a + "," + b) + "][" + (c + "," + d) + "]"
  {
  }

  lemma FieldsShape(a: string, b: string, c: string, d: string)
    ensures ("[" + a + "," + b) + "," + (c + "," + d) + "]" == ['['] + FieldsText(a, b, c, d) + [']']
  {
  }

  /** Bracketed pairs of plain texts come apart into the four texts. */
  lemma PairsFields(a: string, b: string, c: string, d: string)
    requires Plain(a) && Plain(b) && Plain(c) && Plain(d)
    ensures Split(StripChars(ReplaceStr(PairsText(a, b, c, d), "][", ","), {'[', ']'}), ',') == [a, b, c, d]
  {
    PairsReplaced(a, b, c, d);
    StripCharsWrapped('[', FieldsText(a, b, c, d), ']', {'[', ']'});
    SplitFour(a, b, c, d);
  }

  /** Bracketed pairs of parseable numbers read back as those numbers. */
  lemma ParsePairs(a: string, b: string, c: string, d: string, va: int, vb: int, vc: int, vd: int)
    requires Plain(a) && Plain(b) && Plain(c) && Plain(d)
    requires Json.ParseIntStr(a) == Some(va) && Json.ParseIntStr(b) == Some(vb)
    requires Json.ParseIntStr(c) == Some(vc) && Json.ParseIntStr(d) == Some(vd)
    ensures ParseBounds(PairsText(a, b, c, d)) == Some([va, vb, vc, vd])
  {
    PairsFields(a, b, c, d);
    MapAllFour(a, b, c, d, Json.ParseIntStr, va, vb, vc, vd);
  }

  lemma MapAllFour<T, U>(a: T, b: T, c: T, d: T, f: T -> Option<U>, va: U, vb: U, vc: U, vd: U)
    requires f(a) == Some(va) && f(b) == Some(vb) && f(c) == Some(vc) && f(d) == Some(vd)
    ensures MapAll([a, b, c, d], f) == Some([va, vb, vc, vd])
  {
    MapAllEach([a, b, c, d], f, [va, vb, vc, vd]);
  }

  /** The dump's text for non-negative bounds reads back as the four numbers:
    * this reader and `UiParser.MatchBounds` agree on it. */
  lemma ParseBoundsText(bd: UiParser.Bounds)
    requires bd.x1 >= 0 && bd.y1 >= 0 && bd.x2 >= 0 && bd.y2 >= 0
    ensures ParseBounds(UiParser.BoundsText(bd)) == Some([bd.x1, bd.y1, bd.x2, bd.y2])
  {
    var a, b, c, d := NatToStr(bd.x1), NatToStr(bd.y1), NatToStr(bd.x2), NatToStr(bd.y2);
    NumberReadsBack(bd.x1);
    NumberReadsBack(bd.y1);
    NumberReadsBack(bd.x2);
    NumberReadsBack(bd.y2);
    PairsConcat(a, b, c, d);
    ParsePairs(a, b, c, d, bd.x1, bd.y1, bd.x2, bd.y2);
  }

  lemma PairsConcat(a: string, b: string, c: string, d: string)
    ensures ("[" + a + "," + b + "]") + ("[" + c + "," + d + "]") == PairsText(a, b, c, d)
  {
  }

  lemma NumberReadsBack(n: nat)
    ensures Plain(NatToStr(n)) && Json.ParseIntStr(NatToStr(n)) == Some(n)
  {
    NumberTextPlain(n);
    Json.IntRoundTrip(n);
  }


  /** The bounds of a dump element; a missing attribute or one that does not
    * parse gives (0, 0, 0, 0). */
  function BoundsOf(x: UiParser.XmlElement): seq<int>
  {
    if "bounds" !in x.attrs then [0, 0, 0, 0]
    else match ParseBounds(x.attrs["bounds"])
      case Some(b) => b
      case None => [0, 0, 0, 0]
  }

  /** The element for one `node`; `None` where `int()` of its index raises. */
  function ElementOf(x: UiParser.XmlElement): (r: Option<UIElement>)
    ensures r.None? <==> "index" in x.attrs && Json.ParseIntStr(x.attrs["index"]).None?
  {
    var index := if "index" in x.attrs then Json.ParseIntStr(x.attrs["index"]) else Some(0);
    match index
    case None => None
    case Some(i) =>
      Some(UIElement(
        resourceId := UiParser.Attr(x, "resource-id", ""),
        className := UiParser.Attr(x, "class", ""),
        text := UiParser.Attr(x, "text", ""),
        contentDesc := UiParser.Attr(x, "content-desc", ""),
        bounds := BoundsOf(x),
        clickable := UiParser.Flag(x, "clickable", "false"),
        scrollable := UiParser.Flag(x, "scrollable", "false"),
        focusable := UiParser.Flag(x, "focusable", "false"),
        enabled := UiParser.Flag(x, "enabled", "true"),
        selected := UiParser.Flag(x, "selected", "false"),
        checkable := UiParser.Flag(x, "checkable", "false"),
        checked := UiParser.Flag(x, "checked", "false"),
        index := i,
        package := UiParser.Attr(x, "package", "")))
  }

  /** Only elements with text, a description or a click handler are kept. */
  predicate Meaningful(e: UIElement)
  {
    e.text != "" || e.contentDesc != "" || e.clickable
  }

  /** The elements kept from the visited elements `xs`; `None` once an index raises. */
  function ElementsOf(xs: seq<UiParser.XmlElement>): Option<seq<UIElement>>
  {
    if xs == [] then Some([])
    else
      var x := xs[|xs| - 1];
      match ElementsOf(xs[..|xs| - 1])
      case None => None
      case Some(front) =>
        if x.tag != "node" then Some(front)
        else match ElementOf(x)
          case None => None
          case Some(el) => Some(front + (if Meaningful(el) then [el] else []))
  }

  /** `_parse_ui_xml`'s result for a decoded dump (`None` for malformed XML). */
  function ParseUiXmlSpec(xml: Option<UiParser.XmlElement>): Option<seq<UIElement>>
  {
    match xml
    case None => Some([])
    case Some(root) => ElementsOf(Preorder(root))
  }

  /** Every kept element is meaningful and comes from a `node` element, and the
    * read fails exactly when some `node` has an index `int()` rejects. */
  lemma {:induction false} ElementsOfProperties(xs: seq<UiParser.XmlElement>)
    ensures ElementsOf(xs).None? <==> exists k :: 0 <= k < |xs| && xs[k].tag == "node" && ElementOf(xs[k]).None?
    ensures ElementsOf(xs).Some? ==> forall e :: e in ElementsOf(xs).value ==>
      Meaningful(e) && exists k :: 0 <= k < |xs| && xs[k].tag == "node" && ElementOf(xs[k]) == Some(e)
  {
    if xs != [] {
      var front := xs[..|xs| - 1];
      var x := xs[|xs| - 1];
      ElementsOfProperties(front);
      assert forall k :: 0 <= k < |front| ==> front[k] == xs[k];
    }
  }

  // ---------------------------------------------------------------------------
  // Actions

  /** What `ActionResult.action` holds: an `ActionType` as the wrapper sets
    * it, or a plain string where a caller stores one there. */
  datatype ActionTag = Typed(kind: ActionType) | Named(name: string)

  datatype ActionResult = ActionResult(
    success: bool,
    action: ActionTag,
    message: string,
    error: Option<string>,
    screenState: Option<ScreenState>)

  function Failed(action: ActionType, error: string): ActionResult
  {
    ActionResult(false, Typed(action), "", Some(error), None)
  }

  /** The device operations the wrapper offers. */
  datatype DeviceCommand =
    | TapAt(x: int, y: int)
    | TapOn(element: UIElement)
    | SwipeFrom(x1: int, y1: int, x2: int, y2: int, durationMs: int)
    | TypeText(text: string)
    | PressKey(keycode: string)
    | Launch(package: string, activity: Option<string>)
    | WaitFor(seconds: real)

  const BackKey := PressKey("KEYCODE_BACK")
  const HomeKey := PressKey("KEYCODE_HOME")
  const RecentKey := PressKey("KEYCODE_APP_SWITCH")

  function EscapeChar(c: char): string
  {
    if c == ' ' then "%s" else if c == '\'' then "\\'" else if c == '"' then "\\\"" else [c]
  }

  /** `type_text`'s escaping: spaces become "%s", quotes get a backslash. */
  function Escape(text: string): string
  {
    ReplaceChar(ReplaceChar(ReplaceChar(text, ' ', "%s"), '\'', "\\'"), '"', "\\\"")
  }

  function EscapeEach(text: string): string
  {
    if text == [] then [] else EscapeChar(text[0]) + EscapeEach(text[1..])
  }

  lemma {:induction false} ReplaceCharAppend(a: string, b: string, c: char, r: string)
    ensures ReplaceChar(a + b, c, r) == ReplaceChar(a, c, r) + ReplaceChar(b, c, r)
  {
    if a == [] {
      assert a + b == b;
    } else {
      assert (a + b)[1..] == a[1..] + b;
      ReplaceCharAppend(a[1..], b, c, r);
    }
  }

  /** The three chained replacements act character by character. */
  lemma {:induction false} EscapeIsEach(text: string)
    ensures Escape(text) == EscapeEach(text)
  {
    if text != [] {
      var c := text[0];
      assert text == [c] + text[1..];
      EscapeIsEach(text[1..]);
      var s1 := ReplaceChar([c], ' ', "%s");
      var s2 := ReplaceChar(s1, '\'', "\\'");
      ReplaceCharAppend([c], text[1..], ' ', "%s");
      ReplaceCharAppend(s1, ReplaceChar(text[1..], ' ', "%s"), '\'', "\\'");
      ReplaceCharAppend(s2, ReplaceChar(ReplaceChar(text[1..], ' ', "%s"), '\'', "\\'"), '"', "\\\"");
      assert ReplaceChar(s2, '"', "\\\"") == EscapeChar(c);
    }
  }

  /** The escaped text has no space, and every quote in it follows a backslash. */
  lemma {:induction false} EscapeEachSafe(text: string)
    ensures ' ' !in EscapeEach(text)
    ensures forall k :: 0 <= k < |EscapeEach(text)| && EscapeEach(text)[k] in "'\"" ==>
      k > 0 && EscapeEach(text)[k - 1] == '\\'
  {
    if text != [] {
      EscapeEachSafe(text[1..]);
      var h := EscapeChar(text[0]);
      var t := EscapeEach(text[1..]);
      var r := h + t;
      assert r == EscapeEach(text);
      forall k | 0 <= k < |r| && r[k] in "'\"" ensures k > 0 && r[k - 1] == '\\' {
        if k >= |h| {
          assert r[k] == t[k - |h|];
          if k - |h| == 0 {
            assert false;
          }
          assert r[k - 1] == t[k - |h| - 1];
        }
      }
    }
  }

  lemma EscapeSafe(text: string)
    ensures ' ' !in Escape(text)
    ensures forall k :: 0 <= k < |Escape(text)| && Escape(text)[k] in "'\"" ==> k > 0 && Escape(text)[k - 1] == '\\'
  {
    EscapeIsEach(text);
    EscapeEachSafe(text);
  }

  /** "Typed: " with at most 20 characters of the text, and "..." when it was cut. */
  function TypedMessage(text: string): (m: string)
    ensures m == "Typed: " + Take(text, 20) + (if |text| > 20 then "..." else "")
    ensures |m| <= 30
  {
    "Typed: " + Take(text, 20) + (if |text| > 20 then "..." else "")
  }

  function Coords(x: int, y: int): string
  {
    "(" + IntToStr(x) + ", " + IntToStr(y) + ")"
  }

  function TapLine(x: int, y: int): string
  {
    "input tap " + IntToStr(x) + " " + IntToStr(y)
  }

  /** The adb shell command a device operation issues; `None` when it issues none. */
  function ShellLine(cmd: DeviceCommand): Option<string>
  {
    match cmd
    case TapAt(x, y) => Some(TapLine(x, y))
    case TapOn(e) =>
      (match Center(e)
       case None => None
       case Some(c) => Some(TapLine(c.0, c.1)))
    case SwipeFrom(x1, y1, x2, y2, d) =>
      Some("input swipe " + IntToStr(x1) + " " + IntToStr(y1) + " " + IntToStr(x2) + " " + IntToStr(y2) + " " + IntToStr(d))
    case TypeText(text) => Some("input text '" + Escape(text) + "'")
    case PressKey(code) => Some("input keyevent " + code)
    case Launch(p, act) =>
      if act.Some? && act.value != "" then Some("am start -n " + p + "/" + act.value)
      else Some("monkey -p " + p + " -c android.intent.category.LAUNCHER 1")
    case WaitFor(_) => None
  }

  /** The outcome of a device operation whose shell call ended with `shellError`
    * (`None`: it succeeded); `show` renders a float as `str()` does.
    * `None` where tapping an element whose bounds do not unpack raises. */
  function Perform(cmd: DeviceCommand, shellError: Option<string>, show: real -> string): (r: Option<ActionResult>)
    ensures r.None? <==> cmd.TapOn? && Center(cmd.element).None?
    ensures r.Some? ==> (r.value.success <==> cmd.WaitFor? || shellError.None?)
    ensures r.Some? && !r.value.success ==> r.value.error == shellError
    ensures r.Some? ==> r.value.action == Typed(match cmd
      case TapAt(_, _) => Tap
      case TapOn(_) => Tap
      case SwipeFrom(_, _, _, _, _) => Swipe
      case TypeText(_) => Type
      case PressKey(_) => Key
      case Launch(_, _) => LaunchApp
      case WaitFor(_) => Wait)
  {
    match cmd
    case TapAt(x, y) =>
      Some(if shellError.None? then ActionResult(true, Typed(Tap), "Tapped at " + Coords(x, y), None, None)
           else Failed(Tap, shellError.value))
    case TapOn(e) =>
      (match Center(e)
       case None => None
       case Some(c) =>
         // the message is replaced after the tap, whether it failed or not
         var message := "Tapped on '" + DisplayName(e) + "' at " + Coords(c.0, c.1);
         Some(if shellError.None? then ActionResult(true, Typed(Tap), message, None, None)
              else ActionResult(false, Typed(Tap), message, shellError, None)))
    case SwipeFrom(x1, y1, x2, y2, _) =>
      Some(if shellError.None? then ActionResult(true, Typed(Swipe), "Swiped from " + Coords(x1, y1) + " to " + Coords(x2, y2), None, None)
           else Failed(Swipe, shellError.value))
    case TypeText(text) =>
      Some(if shellError.None? then ActionResult(true, Typed(Type), TypedMessage(text), None, None)
           else Failed(Type, shellError.value))
    case PressKey(code) =>
      Some(if shellError.None? then ActionResult(true, Typed(Key), "Pressed key: " + code, None, None)
           else Failed(Key, shellError.value))
    case Launch(p, _) =>
      Some(if shellError.None? then ActionResult(true, Typed(LaunchApp), "Launched app: " + p, None, None)
           else Failed(LaunchApp, shellError.value))
    case WaitFor(s) => Some(ActionResult(true, Typed(Wait), "Waited " + show(s) + "s", None, None))
  }

  // ---------------------------------------------------------------------------
  // The foreground activity

  const Braces: set<char> := {'{', '}'}

  /** A part of the `mResumedActivity` line that names a component: it holds
    * a "/" before and after its braces are stripped. */
  predicate NamesComponent(part: string)
  {
    '/' in part && '/' in StripChars(part, Braces)
  }

  /** The position of the first part that names a component. */
  function FirstComponent(parts: seq<string>): (r: Option<nat>)
    ensures r.Some? ==> r.value < |parts| && NamesComponent(parts[r.value])
    ensures r.Some? ==> forall j :: 0 <= j < r.value ==> !NamesComponent(parts[j])
    ensures r.None? ==> forall j :: 0 <= j < |parts| ==> !NamesComponent(parts[j])
  {
    if parts == [] then None
    else if NamesComponent(parts[0]) then Some(0)
    else match FirstComponent(parts[1..])
      case None => None
      case Some(k) => Some(k + 1)
  }

  /** The package and activity `get_screen_state` reads from the
    * `mResumedActivity` line: the first whitespace-separated part holding a
    * "/", stripped of braces and split at its first "/", the activity
    * without its leading dots. */
  function ResumedActivity(output: string): (r: Option<(string, string)>)
    ensures r.Some? ==> '/' !in r.value.0 && (r.value.1 == [] || r.value.1[0] != '.')
  {
    var parts := SplitWs(output);
    match FirstComponent(parts)
    case None => None
    case Some(k) =>
      match SplitFirst(StripChars(parts[k], Braces), '/')
      case None => None
      case Some(pa) => Some((pa.0, TrimStartChars(pa.1, {'.'})))
  }

  /** The second "/" test never fails: a line names a component exactly when
    * one of its parts holds a "/", and the first such part is the one read. */
  lemma ResumedActivityFound(output: string)
    ensures ResumedActivity(output).None? <==> forall w :: w in SplitWs(output) ==> '/' !in w
    ensures ResumedActivity(output).Some? ==>
      exists k, act :: 0 <= k < |SplitWs(output)| && '/' in SplitWs(output)[k]
        && (forall j :: 0 <= j < k ==> '/' !in SplitWs(output)[j])
        && StripChars(SplitWs(output)[k], Braces) == ResumedActivity(output).value.0 + "/" + act
        && ResumedActivity(output).value.1 == TrimStartChars(act, {'.'})
  {
    var parts := SplitWs(output);
    forall w | w in parts && '/' in w
      ensures NamesComponent(w)
    {
      StripCharsKeeps(w, Braces, '/');
    }
    match FirstComponent(parts)
    case None =>
    case Some(k) =>
      var pa := SplitFirst(StripChars(parts[k], Braces), '/').value;
      assert StripChars(parts[k], Braces) == pa.0 + "/" + pa.1;
  }

  // ---------------------------------------------------------------------------
  // The wrapper object

  class DroidRunWrapper {
    var deviceSerial: Option<string>
    var deviceConnected: bool
    var screenCache: Option<ScreenState>

    constructor (deviceSerial: Option<string>)
      ensures this.deviceSerial == deviceSerial && !deviceConnected && screenCache == None
    {
      this.deviceSerial := deviceSerial;
      deviceConnected := false;
      screenCache := None;
    }

    /** `connect`, given what `adb devices` printed (`None`: the command raised).
      * A configured serial must be listed; an unset one becomes the first device. */
    method Connect(devicesOutput: Option<string>) returns (ok: bool)
      modifies this`deviceSerial, this`deviceConnected
      ensures var unset := old(deviceSerial) == None || old(deviceSerial) == Some("");
        ok <==> (devicesOutput.Some? && Devices(devicesOutput.value) != []
          && (unset || old(deviceSerial).value in Devices(devicesOutput.value)))
      ensures deviceSerial == (if ok && (old(deviceSerial) == None || old(deviceSerial) == Some(""))
        then Some(Devices(devicesOutput.value)[0]) else old(deviceSerial))
      ensures deviceConnected == (old(deviceConnected) || ok)
    {
      if devicesOutput.None? {
        return false;
      }
      var devices := Devices(devicesOutput.value);
      if devices == [] {
        return false;
      }
      if deviceSerial.Some? && deviceSerial.value != "" {
        if deviceSerial.value !in devices {
          return false;
        }
      } else {
        deviceSerial := Some(devices[0]);
      }
      deviceConnected := true;
      ok := true;
    }

    /** `get_screen_state`: a fresh screen stamped `now`, filled step by step
      * and cached. Each adb step is an outcome: `activityOutput` is the
      * `dumpsys` line, `dump` the hierarchy text with its parse, `shotPath`
      * the captured file and `shotData` its base64 text; `None` where that
      * step raised, which leaves its fields at their defaults. */
    method GetScreenState(includeScreenshot: bool, now: real, activityOutput: Option<string>,
                          dump: Option<(string, Option<UiParser.XmlElement>)>,
                          shotPath: Option<string>, shotData: Option<string>)
      returns (state: ScreenState)
      modifies this`screenCache
      ensures screenCache == Some(state) && state.timestamp == now
      ensures var found := if activityOutput.Some? then ResumedActivity(activityOutput.value) else None;
        (found.Some? ==> state.package == found.value.0 && state.activity == found.value.1)
        && (found.None? ==> state.package == "" && state.activity == "")
      ensures dump.None? ==> state.rawXml.None? && state.elements == []
      ensures dump.Some? ==>
        state.rawXml == Some(dump.value.0) && state.elements == ParseUiXmlSpec(dump.value.1).GetOr([])
      ensures state.screenshotPath == (if includeScreenshot then shotPath else None)
      ensures state.screenshotBase64 == (if includeScreenshot && shotPath.Some? then shotData else None)
    {
      state := ScreenState("", "", [], None, None, None, now);
      if activityOutput.Some? && activityOutput.value != "" {
        var found := ResumedActivity(activityOutput.value);
        if found.Some? {
          state := state.(package := found.value.0, activity := found.value.1);
        }
      }
      if dump.Some? {
        state := state.(rawXml := Some(dump.value.0));
        var elements := ParseUiXml(dump.value.1);
        if elements.Some? {
          state := state.(elements := elements.value);
        }
      }
      if includeScreenshot && shotPath.Some? {
        state := state.(screenshotPath := shotPath, screenshotBase64 := shotData);
      }
      screenCache := Some(state);
    }

    /** `_parse_ui_xml`: walks the dump in document order and keeps the
      * meaningful `node` elements; `None` where an index raises. */
    method ParseUiXml(xml: Option<UiParser.XmlElement>) returns (r: Option<seq<UIElement>>)
      ensures r == ParseUiXmlSpec(xml)
    {
      if xml.None? {
        return Some([]);
      }
      var xs := Preorder(xml.value);
      var elements: seq<UIElement> := [];
      var i := 0;
      while i < |xs|
        invariant 0 <= i <= |xs|
        invariant ElementsOf(xs[..i]) == Some(elements)
      {
        var x := xs[i];
        ElementsOfNext(xs, i, elements);
        if x.tag == "node" {
          var el := ElementOf(x);
          if el.None? {
            ElementsNone(xs, i + 1);
            assert xs[..|xs|] == xs;
            return None;
          }
          if Meaningful(el.value) {
            elements := elements + [el.value];
          } else {
            assert elements + [] == elements;
          }
        }
        i := i + 1;
      }
      assert xs[..i] == xs;
      r := Some(elements);
    }
  }

  /** Reading one more visited element. */
  lemma ElementsOfNext(xs: seq<UiParser.XmlElement>, i: nat, front: seq<UIElement>)
    requires i < |xs| && ElementsOf(xs[..i]) == Some(front)
    ensures ElementsOf(xs[..i + 1]) == (if xs[i].tag != "node" then Some(front)
      else match ElementOf(xs[i])
        case None => None
        case Some(el) => Some(front + (if Meaningful(el) then [el] else [])))
  {
    assert xs[..i + 1][..i] == xs[..i] && xs[..i + 1][i] == xs[i];
  }

  /** Once a prefix fails to read, the whole list does. */
  lemma {:induction false} ElementsNone(xs: seq<UiParser.XmlElement>, n: nat)
    requires n <= |xs| && ElementsOf(xs[..n]).None?
    ensures ElementsOf(xs).None?
    decreases |xs| - n
  {
    if n < |xs| {
      assert xs[..n + 1][..n] == xs[..n];
      ElementsNone(xs, n + 1);
    } else {
      assert xs[..n] == xs;
    }
  }
}
