// The screenshot pipeline's bounded history and capture outcomes, and the
// screen-context builder that renders UI elements for the language model.
module Screenshot {
  import opened Wrappers
  import opened Seqs
  import opened PyStr
  import UiParser

  /** `ScreenshotResult`; `size` is `(width, height)`. */
  datatype ScreenshotResult = ScreenshotResult(
    success: bool, path: Option<string>, base64Data: Option<string>,
    width: int, height: int, timestamp: real, error: Option<string>)

  function Failure(error: string, timestamp: real): ScreenshotResult
  {
    ScreenshotResult(false, None, None, 0, 0, timestamp, Some(error))
  }

  /** What the device and the file system did during one capture: the
    * screencap or the pull exited non-zero with the given stderr, something
    * raised with the given message, or the image arrived with its
    * dimensions and its base64 text. */
  datatype CaptureOutcome =
    | ScreencapFailed(stderr: string)
    | PullFailed(stderr: string)
    | Raised(message: string)
    | Captured(path: string, width: int, height: int, encoded: string)

  /** The message of the `IndexError` raised by `pop(0)` on an empty list. */
  const PopEmpty := "pop from empty list"

  /** The history after appending and evicting from the front while it is
    * longer than `maxHistory`; a negative bound ends with an empty list. */
  function Bounded(s: seq<ScreenshotResult>, maxHistory: int): (r: seq<ScreenshotResult>)
    ensures IsSuffix(r, s)
    ensures maxHistory >= 0 ==> |r| == if |s| <= maxHistory then |s| else maxHistory
    ensures maxHistory < 0 ==> r == []
  {
    if |s| <= maxHistory then s else if maxHistory >= 0 then s[|s| - maxHistory..] else []
  }

  /** The newest entry survives whenever the bound is at least one, and the
    * survivors keep their order. */
  lemma BoundedKeepsNewest(s: seq<ScreenshotResult>, x: ScreenshotResult, maxHistory: int)
    requires maxHistory >= 1
    ensures var r := Bounded(s + [x], maxHistory);
      r != [] && r[|r| - 1] == x && |r| <= maxHistory && IsSuffix(r[..|r| - 1], s)
  {
    var full := s + [x];
    var r := Bounded(full, maxHistory);
    assert r[..|r| - 1] == s[|s| - (|r| - 1)..];
  }

  predicate IsSuffix<T(==)>(a: seq<T>, b: seq<T>)
  {
    |a| <= |b| && a == b[|b| - |a|..]
  }

  class ScreenshotPipeline {
    var maxHistory: int
    var history: seq<ScreenshotResult>

    constructor (maxHistory: int)
      ensures this.maxHistory == maxHistory && history == []
    {
      this.maxHistory := maxHistory;
      history := [];
    }

    /** `_add_to_history`: appends, then pops the oldest entry while the list
      * is too long. With a negative bound the loop empties the list and the
      * next pop raises, reported here by `ok == false`. */
    method AddToHistory(result: ScreenshotResult) returns (ok: bool)
      modifies this`history
      ensures ok <==> maxHistory >= 0
      ensures history == Bounded(old(history) + [result], maxHistory)
    {
      history := history + [result];
      ghost var full := history;
      while |history| > maxHistory
        invariant IsSuffix(history, full)
        invariant |full| <= maxHistory ==> history == full
        invariant 0 <= maxHistory < |full| ==> |history| >= maxHistory
        decreases |history|
      {
        if history == [] {
          return false;
        }
        history := history[1..];
      }
      return maxHistory >= 0;
    }

    /** `capture`, with the device and the file system as the given outcome:
      * only a capture that arrives is added to the history, and the history
      * bookkeeping itself can still turn it into a failure. */
    method Capture(outcome: CaptureOutcome, includeBase64: bool, timestamp: real) returns (r: ScreenshotResult)
      modifies this`history
      ensures r.success <==> outcome.Captured? && maxHistory >= 0
      ensures !outcome.Captured? ==> history == old(history)
      ensures outcome.ScreencapFailed? ==> r == Failure("screencap failed: " + outcome.stderr, timestamp)
      ensures outcome.PullFailed? ==> r == Failure("pull failed: " + outcome.stderr, timestamp)
      ensures outcome.Raised? ==> r == Failure(outcome.message, timestamp)
      ensures outcome.Captured? ==>
        var shot := Arrived(outcome, includeBase64, timestamp);
        history == Bounded(old(history) + [shot], maxHistory)
        && r == if maxHistory >= 0 then shot else Failure(PopEmpty, timestamp)
    {
      match outcome {
        case ScreencapFailed(stderr) =>
          r := Failure("screencap failed: " + stderr, timestamp);
        case PullFailed(stderr) =>
          r := Failure("pull failed: " + stderr, timestamp);
        case Raised(message) =>
          r := Failure(message, timestamp);
        case Captured(_, _, _, _) =>
          var shot := Arrived(outcome, includeBase64, timestamp);
          var ok := AddToHistory(shot);
          r := if ok then shot else Failure(PopEmpty, timestamp);
      }
    }

    /** The `history` property: a copy of the list. */
    function History(): (h: seq<ScreenshotResult>)
      reads this
      ensures |h| == |history| && forall i :: 0 <= i < |h| ==> h[i] == history[i]
    {
      history[..]
    }

    /** `get_latest` */
    function GetLatest(): (r: Option<ScreenshotResult>)
      reads this
      ensures r.None? <==> history == []
      ensures r.Some? ==> r.value == history[|history| - 1]
    {
      if history == [] then None else Some(history[|history| - 1])
    }

    /** `clear_history` */
    method ClearHistory()
      modifies this`history
      ensures history == [] && GetLatest().None?
    {
      history := [];
    }
  }

  /** The result of a capture that arrived. */
  function Arrived(outcome: CaptureOutcome, includeBase64: bool, timestamp: real): (r: ScreenshotResult)
    requires outcome.Captured?
    ensures r.success && r.path == Some(outcome.path) && r.error.None?
    ensures r.base64Data.Some? <==> includeBase64
  {
    ScreenshotResult(true, Some(outcome.path), if includeBase64 then Some(outcome.encoded) else None,
                     outcome.width, outcome.height, timestamp, None)
  }

  /** After a capture that arrives with a positive bound, the latest entry is that capture. */
  lemma LatestIsCapture(p: ScreenshotPipeline, before: seq<ScreenshotResult>, r: ScreenshotResult)
    requires p.maxHistory >= 1 && r.success
    requires p.history == Bounded(before + [r], p.maxHistory)
    ensures p.GetLatest() == Some(r) && |p.History()| <= p.maxHistory
  {
    BoundedKeepsNewest(before, r, p.maxHistory);
  }

  // ---------------------------------------------------------------------------
  // ScreenContextBuilder

  /** An element handed to the builder: a parsed node, or a plain dictionary
    * whose `index`, `text`, `content_desc` and `center` may be absent. */
  datatype ContextElement =
    | Node(node: UiParser.UINode)
    | Record(index: Option<int>, text: Option<string>, contentDesc: Option<string>,
             center: Option<(int, int)>, clickable: bool)

  /** The compact line of a dictionary element: index (default 0), K when
    * clickable else T, the text (else the description) cut to 20, and the
    * centre or (0, 0). */
  function RecordLine(e: ContextElement): (line: string)
    requires e.Record?
  {
    var name := Take(e.text.GetOr(e.contentDesc.GetOr("")), 20);
    var c := e.center.GetOr((0, 0));
    UiParser.CompactLine(e.index.GetOr(0), (if e.clickable then "K" else "T") + ":" + name, c.0, c.1)
  }

  function ElementLine(e: ContextElement): string
  {
    match e
    case Node(n) => UiParser.NodeComptext(n)
    case Record(_, _, _, _, _) => RecordLine(e)
  }

  /** The lines of `_build_comptext_state`. */
  function ComptextStateLines(elements: seq<ContextElement>, package: string): (lines: seq<string>)
    ensures |lines| == (if package != "" then 2 else 1) + (if |elements| <= 15 then |elements| else 15)
  {
    ComptextHeader(elements, package) + ElementLines(Take(elements, 15))
  }

  /** The "App:" line when there is a package, then the "Els:" line. */
  function ComptextHeader(elements: seq<ContextElement>, package: string): (header: seq<string>)
    ensures |header| == if package != "" then 2 else 1
  {
    (if package != "" then ["App:" + LastSegment(package, '.')] else []) + ["Els:" + NatToStr(|elements|)]
  }

  /** An "App:" line with the package's last dotted segment when there is a
    * package, the element count, then one line per element, at most 15. */
  lemma ComptextStateLayout(elements: seq<ContextElement>, package: string)
    ensures var lines := ComptextStateLines(elements, package);
      var h := if package != "" then 1 else 0;
      (package != "" ==> lines[0] == "App:" + LastSegment(package, '.'))
      && lines[h] == "Els:" + NatToStr(|elements|)
      && forall i :: 0 <= i < |lines| - h - 1 ==> lines[h + 1 + i] == ElementLine(elements[i])
  {
    var header := ComptextHeader(elements, package);
    var body := ElementLines(Take(elements, 15));
    LinesAfter(header, body, elements);
  }

  /** One line per element, in order. */
  function ElementLines(elements: seq<ContextElement>): (lines: seq<string>)
    ensures |lines| == |elements|
    ensures forall i :: 0 <= i < |elements| ==> lines[i] == ElementLine(elements[i])
  {
    seq(|elements|, i requires 0 <= i < |elements| => ElementLine(elements[i]))
  }

  /** Lines for a prefix of `elements`, placed after a header. */
  lemma LinesAfter(header: seq<string>, body: seq<string>, elements: seq<ContextElement>)
    requires |body| <= |elements| && body == ElementLines(elements[..|body|])
    ensures forall i :: 0 <= i < |body| ==> (header + body)[|header| + i] == ElementLine(elements[i])
  {
    forall i | 0 <= i < |body|
      ensures (header + body)[|header| + i] == ElementLine(elements[i])
    {
      assert elements[..|body|][i] == elements[i];
    }
  }

  /** A dictionary element's name is at most 20 characters, a prefix of its
    * text, or of its description when it has no text. */
  lemma RecordNameBound(e: ContextElement)
    requires e.Record?
    ensures var src := e.text.GetOr(e.contentDesc.GetOr(""));
      var name := Take(src, 20);
      |name| <= 20 && name == src[..|name|]
      && RecordLine(e) == UiParser.CompactLine(e.index.GetOr(0), (if e.clickable then "K" else "T") + ":" + name,
                                              e.center.GetOr((0, 0)).0, e.center.GetOr((0, 0)).1)
  {
  }

  function ComptextState(elements: seq<ContextElement>, package: string): string
  {
    Join(ComptextStateLines(elements, package), "\n")
  }

  /** The dictionary fields `_build_verbose_state` reads: the index text
    * ("?" when absent), text, description, clickable and centre. */
  function VerboseFields(e: ContextElement): (string, string, string, bool, (int, int))
  {
    match e
    case Node(n) => (IntToStr(n.index), n.text, n.contentDesc, n.clickable, UiParser.Center(n.bounds))
    case Record(index, text, desc, center, clickable) =>
      (if index.Some? then IntToStr(index.value) else "?", text.GetOr(""), desc.GetOr(""), clickable,
       center.GetOr((0, 0)))
  }

  /** One element line of `_build_verbose_state`. */
  function VerboseElementLine(e: ContextElement): (line: string)
    ensures StartsWith(line, "[" + VerboseFields(e).0 + "]")
  {
    var (idx, text, desc, clickable, c) := VerboseFields(e);
    var parts := ["[" + idx + "]"]
      + (if text != "" then ["text=\"" + text + "\""] else [])
      + (if desc != "" then ["desc=\"" + desc + "\""] else [])
      + ["clickable=" + BoolToStr(clickable), "center=" + UiParser.TupleStr([c.0, c.1])];
    assert |parts| > 1;
    assert Join(parts, " ") == parts[0] + " " + Join(parts[1..], " ");
    Join(parts, " ")
  }

  /** The lines of `_build_verbose_state`: five header lines, then at most 20 elements. */
  function VerboseStateLines(elements: seq<ContextElement>, package: string, activity: string): (lines: seq<string>)
    ensures |lines| == 5 + (if |elements| <= 20 then |elements| else 20)
    ensures lines[0] == "Current Application: " + package && lines[1] == "Current Activity: " + activity
    ensures lines[2] == "" && lines[3] == "UI Elements (" + NatToStr(|elements|) + " visible):"
    ensures |lines[4]| == 50 && forall k :: 0 <= k < 50 ==> lines[4][k] == '-'
    ensures forall i :: 0 <= i < |lines| - 5 ==> lines[5 + i] == VerboseElementLine(elements[i])
  {
    var shown := Take(elements, 20);
    ["Current Application: " + package, "Current Activity: " + activity, "",
     "UI Elements (" + NatToStr(|elements|) + " visible):", seq(50, _ => '-')]
    + seq(|shown|, i requires 0 <= i < |shown| => VerboseElementLine(shown[i]))
  }

  function VerboseState(elements: seq<ContextElement>, package: string, activity: string): string
  {
    Join(VerboseStateLines(elements, package, activity), "\n")
  }

  /** The context dictionary of `build_context`; `timestamp` is the
    * screenshot's, or the clock reading `now` without one. */
  datatype Context = Context(
    hasScreenshot: bool, screenSize: (int, int), timestamp: real,
    format: string, uiState: string, screenshotBase64: Option<string>)

  /** `build_context` */
  function BuildContext(useComptext: bool, screenshot: Option<ScreenshotResult>, elements: seq<ContextElement>,
                        package: string, activity: string, now: real): (c: Context)
    ensures c.hasScreenshot <==> screenshot.Some? && screenshot.value.success
    ensures screenshot.None? ==> c.screenSize == (0, 0) && c.timestamp == now
    ensures screenshot.Some? ==> c.screenSize == (screenshot.value.width, screenshot.value.height)
    ensures c.format == (if useComptext then "comptext" else "verbose")
    ensures c.uiState == if useComptext then ComptextState(elements, package) else VerboseState(elements, package, activity)
    ensures c.screenshotBase64.Some? <==>
      screenshot.Some? && screenshot.value.base64Data.Some? && screenshot.value.base64Data.value != ""
  {
    var shot := screenshot.Some?;
    var data := if shot && screenshot.value.base64Data.Some? && screenshot.value.base64Data.value != ""
                then screenshot.value.base64Data else None;
    Context(shot && screenshot.value.success,
            if shot then (screenshot.value.width, screenshot.value.height) else (0, 0),
            if shot then screenshot.value.timestamp else now,
            if useComptext then "comptext" else "verbose",
            if useComptext then ComptextState(elements, package) else VerboseState(elements, package, activity),
            data)
  }
}
