// What the mobile agent tells the language model: the system prompts, the
// screen in its compact or verbose form, the feedback after an action, and
// the bounded memory of recent screens.
module AgentFormat {
  import opened Wrappers
  import opened Seqs
  import opened PyStr
  import D = Droidrun
  import Ollama

  const ComptextSystemPrompt :=
    "MA:Android. Acts:tap/swipe/type/back/home/launch/wait/done.\n"
    + "JSON:{t:\"thought\",a:\"action\",p:{params},c:0.0-1.0}\n"
    + "tap:{ei:N}|{x,y}. swipe:{d:\"u/d/l/r\"}. type:{txt:\"\"}. launch:{pkg:\"\"}. done:{}\n"
    + "Verify after act. Concise."

  const VerboseSystemPrompt :=
    "You are a mobile automation agent controlling an Android device.\n\n"
    + "Your capabilities:\n"
    + "- Analyze screen states (UI elements, layout, current app)\n"
    + "- Plan action sequences to complete user tasks\n"
    + "- Execute actions: tap, swipe, type, back, home, launch_app\n"
    + "- Verify results and adapt if needed\n\n"
    + "Response format (JSON):\n"
    + "{\n"
    + "    \"thought\": \"Brief reasoning about current state and next action\",\n"
    + "    \"action\": \"tap|swipe|type|back|home|launch_app|wait|done\",\n"
    + "    \"params\": {\n"
    + "        // For tap: {\"element_index\": 0} or {\"x\": 100, \"y\": 200}\n"
    + "        // For swipe: {\"direction\": \"up|down|left|right\"} or {\"x1\":..., \"y1\":..., \"x2\":..., \"y2\":...}\n"
    + "        // For type: {\"text\": \"text to type\"}\n"
    + "        // For launch_app: {\"package\": \"com.android.chrome\"}\n"
    + "        // For wait: {\"seconds\": 1.0}\n"
    + "        // For done: {}\n"
    + "    },\n"
    + "    \"confidence\": 0.0-1.0\n"
    + "}\n\n"
    + "Rules:\n"
    + "- Use element_index when possible (more reliable than coordinates)\n"
    + "- Always verify action success before proceeding\n"
    + "- If stuck, try alternative approaches\n"
    + "- Report \"done\" when task is complete\n"
    + "- Keep thoughts concise (CompText optimized)\n"

  /** The lines for `elements`, numbered from `from`; `None` as soon as one
    * line raises. */
  function NumberedLines(elements: seq<D.UIElement>, from: nat, line: (nat, D.UIElement) -> Option<string>)
    : (r: Option<seq<string>>)
    ensures r.Some? <==> forall k :: 0 <= k < |elements| ==> line(from + k, elements[k]).Some?
    ensures r.Some? ==> |r.value| == |elements|
    ensures r.Some? ==> forall k :: 0 <= k < |elements| ==> line(from + k, elements[k]) == Some(r.value[k])
    decreases |elements|
  {
    if elements == [] then Some([])
    else match line(from, elements[0])
      case None => None
      case Some(first) =>
        assert forall k :: 0 < k < |elements| ==> elements[k] == elements[1..][k - 1];
        match NumberedLines(elements[1..], from + 1, line)
        case None => None
        case Some(rest) => Some([first] + rest)
  }

  /** The compact type letter: B clickable, T text, E anything else. */
  function TypeLetter(el: D.UIElement): (t: string)
    ensures t == "B" <==> el.clickable
    ensures t == "T" <==> !el.clickable && el.text != ""
    ensures t == "E" <==> !el.clickable && el.text == ""
  {
    if el.clickable then "B" else if el.text != "" then "T" else "E"
  }

  /** `{i}:{type}:{name}@{x},{y}`; `None` where unpacking the centre raises. */
  function CompactLine(i: nat, el: D.UIElement): Option<string>
  {
    match D.Center(el)
    case None => None
    case Some(c) =>
      Some(NatToStr(i) + ":" + TypeLetter(el) + ":" + Take(D.DisplayName(el), 20) + "@" + IntToStr(c.0) + "," + IntToStr(c.1))
  }

  function CompactHeader(package: string): string
  {
    "App:" + (if package != "" then LastSegment(package, '.') else "?")
  }

  /** The lines of `_format_screen_compact`: the app, then at most 15
    * elements; `None` when one of those elements has no centre. */
  function CompactLines(screen: D.ScreenState): (r: Option<seq<string>>)
    ensures r.Some? <==> forall k :: 0 <= k < |screen.elements| && k < 15 ==> D.Center(screen.elements[k]).Some?
  {
    var top := Take(screen.elements, 15);
    assert forall k :: 0 <= k < |top| ==> top[k] == screen.elements[k];
    assert forall k :: 0 <= k < |top| ==> (CompactLine(0 + k, top[k]).Some? <==> D.Center(top[k]).Some?);
    match NumberedLines(top, 0, CompactLine)
    case None => None
    case Some(ls) => Some([CompactHeader(screen.package), "Els:"] + ls)
  }

  /** The compact lines are the header, "Els:", and the line of each of the
    * first 15 elements in order. */
  lemma CompactLinesShape(screen: D.ScreenState)
    requires CompactLines(screen).Some?
    ensures var r := CompactLines(screen).value;
      |r| == 2 + (if |screen.elements| < 15 then |screen.elements| else 15)
      && r[0] == CompactHeader(screen.package) && r[1] == "Els:"
      && forall k :: 2 <= k < |r| ==> CompactLine(k - 2, screen.elements[k - 2]) == Some(r[k])
  {
    var top := Take(screen.elements, 15);
    var head := [CompactHeader(screen.package), "Els:"];
    var ls := NumberedLines(top, 0, CompactLine).value;
    assert CompactLines(screen).value == head + ls;
    assert forall k :: 2 <= k < |head + ls| ==> (head + ls)[k] == ls[k - 2];
    assert forall k :: 0 <= k < |top| ==> top[k] == screen.elements[k];
  }

  /** Each element line carries the element's index, its type letter, at most
    * 20 characters from the start of its name, and its centre. */
  lemma CompactLineFields(i: nat, el: D.UIElement)
    requires D.Center(el).Some?
    ensures var name := Take(D.DisplayName(el), 20);
      |name| <= 20 && StartsWith(D.DisplayName(el), name)
      && CompactLine(i, el).value == NatToStr(i) + ":" + TypeLetter(el) + ":" + name + "@"
         + IntToStr(D.Center(el).value.0) + "," + IntToStr(D.Center(el).value.1)
  {
  }

  /** `[i] text="…" desc="…" id="…" clickable=… center=(x, y)`, each of the
    * first three only when present. */
  function VerboseLine(i: nat, el: D.UIElement): Option<string>
  {
    match D.Center(el)
    case None => None
    case Some(c) =>
      var parts := ["[" + NatToStr(i) + "]"]
        + (if el.text != "" then ["text=\"" + el.text + "\""] else [])
        + (if el.contentDesc != "" then ["desc=\"" + el.contentDesc + "\""] else [])
        + (if el.resourceId != "" then ["id=\"" + LastSegment(el.resourceId, '/') + "\""] else [])
        + ["clickable=" + BoolToStr(el.clickable), "center=" + D.Coords(c.0, c.1)];
      Some(Join(parts, " "))
  }

  /** The lines of `_format_screen_verbose`: package, activity, a blank line,
    * a title, then at most 20 elements. */
  function VerboseLines(screen: D.ScreenState): (r: Option<seq<string>>)
    ensures r.Some? <==> forall k :: 0 <= k < |screen.elements| && k < 20 ==> D.Center(screen.elements[k]).Some?
    ensures r.Some? ==> |r.value| == 4 + (if |screen.elements| < 20 then |screen.elements| else 20)
    ensures r.Some? ==> r.value[..4] == ["Package: " + screen.package, "Activity: " + screen.activity, "", "UI Elements:"]
    ensures r.Some? ==> forall k :: 4 <= k < |r.value| ==>
      VerboseLine(k - 4, screen.elements[k - 4]) == Some(r.value[k])
  {
    var top := Take(screen.elements, 20);
    var head := ["Package: " + screen.package, "Activity: " + screen.activity, "", "UI Elements:"];
    match NumberedLines(top, 0, VerboseLine)
    case None => None
    case Some(ls) =>
      assert (head + ls)[..4] == head;
      assert forall k :: 4 <= k < |head + ls| ==> (head + ls)[k] == ls[k - 4];
      assert forall k :: 0 <= k < |top| ==> top[k] == screen.elements[k];
      Some(head + ls)
  }

  /** `_format_screen_context`: compact or verbose as configured. */
  function ScreenContext(useComptext: bool, screen: D.ScreenState): (r: Option<string>)
    ensures r.None? <==>
      exists k :: 0 <= k < |screen.elements| && k < (if useComptext then 15 else 20) && D.Center(screen.elements[k]).None?
  {
    if useComptext then
      (match CompactLines(screen) case None => None case Some(ls) => Some(Join(ls, "\n")))
    else
      (match VerboseLines(screen) case None => None case Some(ls) => Some(Join(ls, "\n")))
  }

  /** `_build_initial_messages` */
  function InitialMessages(useComptext: bool, task: string, screen: D.ScreenState): (r: Option<seq<Ollama.ChatMessage>>)
    ensures r.Some? <==> ScreenContext(useComptext, screen).Some?
    ensures r.Some? ==> |r.value| == 2 && r.value[0].role == "system" && r.value[1].role == "user"
    ensures r.Some? ==> r.value[0].content == (if useComptext then ComptextSystemPrompt else VerboseSystemPrompt)
    ensures r.Some? ==> StartsWith(r.value[1].content, "Task: " + task + "\n\nCurrent screen:\n")
  {
    match ScreenContext(useComptext, screen)
    case None => None
    case Some(ctx) =>
      var prompt := if useComptext then ComptextSystemPrompt else VerboseSystemPrompt;
      var user := "Task: " + task + "\n\nCurrent screen:\n" + ctx;
      StartsWithConcat("Task: " + task + "\n\nCurrent screen:\n", ctx);
      Some([Ollama.ChatMessage("system", prompt, None, None), Ollama.ChatMessage("user", user, None, None)])
  }

  /** `str()` of an optional error. */
  function OptStr(e: Option<string>): string
  {
    if e.Some? then e.value else "None"
  }

  function Status(result: D.ActionResult): string
  {
    if result.success then "OK" else "FAIL:" + OptStr(result.error)
  }

  /** `_build_step_feedback` */
  function StepFeedback(useComptext: bool, result: D.ActionResult, screen: D.ScreenState): (r: Option<string>)
    ensures r.Some? <==> ScreenContext(useComptext, screen).Some?
  {
    match ScreenContext(useComptext, screen)
    case None => None
    case Some(ctx) =>
      Some(if useComptext then "R:" + Status(result) + "\n" + ctx
           else "Action result: " + Status(result) + "\n\nNew screen state:\n" + ctx)
  }

  /** After any lead, the status says "OK" exactly for a success, and a
    * failure's status carries its error. */
  lemma StatusPrefix(lead: string, result: D.ActionResult, rest: string)
    ensures result.success <==> StartsWith(lead + Status(result) + rest, lead + "OK")
    ensures !result.success ==> StartsWith(lead + Status(result) + rest, lead + "FAIL:" + OptStr(result.error))
  {
    var fb := lead + Status(result) + rest;
    if result.success {
      assert fb == (lead + "OK") + rest;
      StartsWithConcat(lead + "OK", rest);
    } else {
      var failure := "FAIL:" + OptStr(result.error);
      assert fb == (lead + failure) + rest;
      StartsWithConcat(lead + failure, rest);
      assert fb == lead + (failure + rest);
      StartsWithDiffers(lead, failure + rest, "OK");
    }
  }

  /** The feedback's status tells success from failure, and a failure's text
    * carries its error. */
  lemma FeedbackStatus(useComptext: bool, result: D.ActionResult, screen: D.ScreenState)
    requires StepFeedback(useComptext, result, screen).Some?
    ensures var fb := StepFeedback(useComptext, result, screen).value;
      var lead := if useComptext then "R:" else "Action result: ";
      (result.success <==> StartsWith(fb, lead + "OK"))
      && (!result.success ==> StartsWith(fb, lead + "FAIL:" + OptStr(result.error)))
  {
    var ctx := ScreenContext(useComptext, screen).value;
    if useComptext {
      AppendAssoc("R:" + Status(result), "\n", ctx);
      StatusPrefix("R:", result, "\n" + ctx);
    } else {
      AppendAssoc("Action result: " + Status(result), "\n\nNew screen state:\n", ctx);
      StatusPrefix("Action result: ", result, "\n\nNew screen state:\n" + ctx);
    }
  }

  // ---------------------------------------------------------------------------
  // Context memory

  /** Python's `lst[start:]` for any integer start. */
  function SliceFrom<T>(lst: seq<T>, start: int): (r: seq<T>)
    ensures start >= 0 ==> r == lst[(if start <= |lst| then start else |lst|)..]
    ensures start < 0 ==> r == lst[(if |lst| + start >= 0 then |lst| + start else 0)..]
  {
    if start >= 0 then lst[(if start <= |lst| then start else |lst|)..]
    else lst[(if |lst| + start >= 0 then |lst| + start else 0)..]
  }

  /** `_add_to_context` as written: append, then `lst[-max_size:]` when the
    * list is longer than `max_size`. */
  function AddToContextAsWritten<T>(memory: seq<T>, screen: T, maxSize: int): (r: seq<T>)
    ensures |r| <= |memory| + 1 && r == (memory + [screen])[|memory| + 1 - |r|..]
    ensures maxSize > 0 ==> |r| == (if |memory| + 1 <= maxSize then |memory| + 1 else maxSize)
    ensures maxSize <= 0 ==> |r| == (if |memory| + 1 + maxSize >= 0 then |memory| + 1 + maxSize else 0)
  {
    var lst := memory + [screen];
    if |lst| > maxSize then SliceFrom(lst, -maxSize) else lst
  }

  /** With a memory size of 0, `lst[-0:]` is the whole list: the memory keeps
    * every screen instead of none. */
  lemma ZeroSizeKeepsAll<T>(memory: seq<T>, screen: T)
    ensures AddToContextAsWritten(memory, screen, 0) == memory + [screen]
    ensures |AddToContextAsWritten(memory, screen, 0)| == |memory| + 1
  {
  }

  /** `_add_to_context` as intended: keep the newest `max(max_size, 0)` screens. */
  function AddToContext<T>(memory: seq<T>, screen: T, maxSize: int): (r: seq<T>)
    ensures var keep := if maxSize > 0 then maxSize else 0;
      |r| == (if |memory| + 1 <= keep then |memory| + 1 else keep)
    ensures r == (memory + [screen])[|memory| + 1 - |r|..]
  {
    var lst := memory + [screen];
    var keep := if maxSize > 0 then maxSize else 0;
    if |lst| > keep then lst[|lst| - keep..] else lst
  }

  /** For a positive size the two agree; the newest screen is then always kept. */
  lemma AddToContextAgrees<T>(memory: seq<T>, screen: T, maxSize: int)
    requires maxSize > 0
    ensures AddToContext(memory, screen, maxSize) == AddToContextAsWritten(memory, screen, maxSize)
    ensures AddToContext(memory, screen, maxSize)[|AddToContext(memory, screen, maxSize)| - 1] == screen
  {
  }
}
