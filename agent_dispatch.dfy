// `MobileAgent._execute_action`: from a parsed action to a device command,
// or to the failed result the agent reports without touching the device.
module AgentDispatch {
  import opened Wrappers
  import opened PyStr
  import opened Dicts
  import opened Json
  import D = Droidrun

  /** What `str(e)` gives for an exception the model does not spell out. */
  const Raised := "<exception>"

  /** A parsed action either runs a device command or is refused up front. */
  datatype Plan = Run(cmd: D.DeviceCommand) | Refuse(result: D.ActionResult)

  /** A refusal is a failure that carries its error message. */
  predicate Failing(p: Plan)
  {
    p.Refuse? ==> !p.result.success && p.result.error.Some?
  }

  /** `str(x)` of a decoded value, floats rendered by `show`. */
  function Show(j: Json, show: real -> string): string
  {
    if j.JFloat? then show(j.r) else PyStrOf(j)
  }

  /** `action_data.get("action", "").lower()`: `None` where the value is not a
    * string and `.lower()` raises. */
  function ActionWord(data: Dict<Json>): (r: Option<string>)
    ensures r.Some? <==> FieldOr(data, "action", JStr("")).JStr?
    ensures r.Some? ==> r.value == Lower(FieldOr(data, "action", JStr("")).s)
  {
    match FieldOr(data, "action", JStr(""))
    case JStr(s) => Some(Lower(s))
    case _ => None
  }

  /** `params.get(k, default)`: `None` where `params` is not an object. */
  function ParamGet(params: Json, k: string, default: Json): Option<Json>
  {
    if params.JObj? then Some(FieldOr(params.fields, k, default)) else None
  }

  /** `params.get(k, params.get(k2, default))`, the inner call first. */
  function ParamGet2(params: Json, k: string, k2: string, default: Json): (r: Option<Json>)
    ensures r.Some? <==> params.JObj?
    ensures params.JObj? && HasKey(params.fields, k) ==> r == Get(params.fields, k)
    ensures params.JObj? && !HasKey(params.fields, k) ==> r == Some(FieldOr(params.fields, k2, default))
  {
    match ParamGet(params, k2, default)
    case None => None
    case Some(inner) => ParamGet(params, k, inner)
  }

  /** `k in params or k2 in params`, with Python's short circuit. */
  function EitherIn(k: string, k2: string, params: Json): (r: Option<bool>)
    ensures params.JObj? ==> r == Some(HasKey(params.fields, k) || HasKey(params.fields, k2))
    ensures r.None? <==> PyIn(k, params).None?
  {
    match PyIn(k, params)
    case None => None
    case Some(true) => Some(true)
    case Some(false) => PyIn(k2, params)
  }

  /** `int(params[k])`: `None` where the lookup or the conversion raises. */
  function IntParam(params: Json, k: string): Option<int>
  {
    if params.JObj? && HasKey(params.fields, k) then PyInt(Get(params.fields, k).value) else None
  }

  const MissingTap := "Missing tap coordinates or element_index"
  const InvalidSwipe := "Invalid swipe parameters"
  const MissingText := "Missing text to type"
  const MissingPackage := "Missing package name"

  /** The tap by index: `0 <= idx < len(elements)` compares numbers only, and
    * only an int (or bool) indexes the list. */
  function TapIndex(idx: Json, elements: seq<D.UIElement>, show: real -> string): (p: Plan)
    ensures p.Run? ==> exists i :: 0 <= i < |elements| && p.cmd == D.TapOn(elements[i])
    ensures p.Refuse? ==> !p.result.success && p.result.action == D.Typed(D.Tap)
    ensures Failing(p)
  {
    match idx
    case JInt(i) =>
      if 0 <= i < |elements| then Run(D.TapOn(elements[i]))
      else Refuse(D.Failed(D.Tap, "Invalid element index: " + Show(idx, show)))
    case JBool(b) =>
      var i := if b then 1 else 0;
      if i < |elements| then Run(D.TapOn(elements[i]))
      else Refuse(D.Failed(D.Tap, "Invalid element index: " + Show(idx, show)))
    case JFloat(r) =>
      if 0.0 <= r < |elements| as real then Refuse(D.Failed(D.Tap, Raised))
      else Refuse(D.Failed(D.Tap, "Invalid element index: " + Show(idx, show)))
    case _ => Refuse(D.Failed(D.Tap, Raised))
  }

  function PlanTap(params: Json, elements: seq<D.UIElement>, show: real -> string): (p: Plan)
    ensures p.Refuse? ==> !p.result.success && p.result.action == D.Typed(D.Tap)
    ensures Failing(p)
  {
    match EitherIn("element_index", "ei", params)
    case None => Refuse(D.Failed(D.Tap, Raised))
    case Some(true) =>
      (match ParamGet2(params, "element_index", "ei", JInt(0))
       case None => Refuse(D.Failed(D.Tap, Raised))
       case Some(idx) => TapIndex(idx, elements, show))
    case Some(false) =>
      if PyIn("x", params) != Some(true) || PyIn("y", params) != Some(true) then
        Refuse(D.Failed(D.Tap, if PyIn("x", params).None? then Raised else MissingTap))
      else match (IntParam(params, "x"), IntParam(params, "y"))
        case (Some(x), Some(y)) => Run(D.TapAt(x, y))
        case _ => Refuse(D.Failed(D.Tap, Raised))
  }

  /** The swipe a direction name stands for, around (540, 960) by 500 pixels. */
  function Direction(d: string): (r: Option<(int, int, int, int)>)
    ensures r.Some? <==> d in ["up", "u", "down", "d", "left", "l", "right", "r"]
  {
    var cx, cy, dist := 540, 960, 500;
    if d == "up" || d == "u" then Some((cx, cy + dist, cx, cy - dist))
    else if d == "down" || d == "d" then Some((cx, cy - dist, cx, cy + dist))
    else if d == "left" || d == "l" then Some((cx + dist, cy, cx - dist, cy))
    else if d == "right" || d == "r" then Some((cx - dist, cy, cx + dist, cy))
    else None
  }

  /** Every direction swipes 1000 pixels along one axis through the centre;
    * "up" moves upward and "right" moves right. */
  lemma DirectionGeometry(d: string)
    requires Direction(d).Some?
    ensures var (x1, y1, x2, y2) := Direction(d).value;
      x1 + x2 == 1080 && y1 + y2 == 1920
      && ((x1 == x2 && (y1 - y2 == 1000 || y2 - y1 == 1000)) || (y1 == y2 && (x1 - x2 == 1000 || x2 - x1 == 1000)))
    ensures Direction("up").value.3 < Direction("up").value.1 && Direction("right").value.0 < Direction("right").value.2
  {
    assert Direction("up") == Some((540, 1460, 540, 460));
  }

  /** Each short direction word swipes like its long one. */
  lemma DirectionAliases()
    ensures Direction("u") == Direction("up") && Direction("d") == Direction("down")
    ensures Direction("l") == Direction("left") && Direction("r") == Direction("right")
  {
    assert Direction("left") == Direction("l") == Some((1040, 960, 40, 960));
    assert Direction("right") == Direction("r") == Some((40, 960, 1040, 960));
  }

  /** The swipe for a `direction` value: unhashable values raise, others that
    * name no direction are invalid. */
  function SwipeDirection(dir: Json): (p: Plan)
    ensures Failing(p)
  {
    match dir
    case JArr(_) => Refuse(D.Failed(D.Tap, Raised))
    case JObj(_) => Refuse(D.Failed(D.Tap, Raised))
    case JStr(s) =>
      (match Direction(s)
       case Some(v) => Run(D.SwipeFrom(v.0, v.1, v.2, v.3, 300))
       case None => Refuse(D.Failed(D.Swipe, InvalidSwipe)))
    case _ => Refuse(D.Failed(D.Swipe, InvalidSwipe))
  }

  predicate AllIn(ks: seq<string>, params: Json)
  {
    forall k :: k in ks ==> PyIn(k, params) == Some(true)
  }

  function PlanSwipe(params: Json): (p: Plan)
    ensures p.Run? ==> p.cmd.SwipeFrom? && p.cmd.durationMs == 300
    ensures Failing(p)
  {
    match EitherIn("direction", "d", params)
    case None => Refuse(D.Failed(D.Tap, Raised))
    case Some(true) =>
      (match ParamGet2(params, "direction", "d", JStr("up"))
       case None => Refuse(D.Failed(D.Tap, Raised))
       case Some(dir) => SwipeDirection(dir))
    case Some(false) =>
      if !AllIn(["x1", "y1", "x2", "y2"], params) then Refuse(D.Failed(D.Swipe, InvalidSwipe))
      else match (IntParam(params, "x1"), IntParam(params, "y1"), IntParam(params, "x2"), IntParam(params, "y2"))
        case (Some(x1), Some(y1), Some(x2), Some(y2)) => Run(D.SwipeFrom(x1, y1, x2, y2, 300))
        case _ => Refuse(D.Failed(D.Tap, Raised))
  }

  function PlanType(params: Json): (p: Plan)
    ensures p.Run? ==> p.cmd.TypeText? && p.cmd.text != []
    ensures Failing(p)
  {
    match ParamGet2(params, "text", "txt", JStr(""))
    case None => Refuse(D.Failed(D.Tap, Raised))
    case Some(text) =>
      if !Truthy(text) then Refuse(D.Failed(D.Type, MissingText))
      // `type_text` calls `.replace` on it, inside its own handler
      else if !text.JStr? then Refuse(D.Failed(D.Type, Raised))
      else Run(D.TypeText(text.s))
  }

  function PlanLaunch(params: Json, show: real -> string): (p: Plan)
    ensures p.Run? ==> p.cmd.Launch? && p.cmd.activity.None?
    ensures Failing(p)
  {
    match ParamGet2(params, "package", "pkg", JStr(""))
    case None => Refuse(D.Failed(D.Tap, Raised))
    case Some(pkg) =>
      if Truthy(pkg) then Run(D.Launch(Show(pkg, show), None))
      else Refuse(D.Failed(D.LaunchApp, MissingPackage))
  }

  function PlanWait(params: Json): (p: Plan)
    ensures p.Run? ==> p.cmd.WaitFor?
    ensures p.Run? <==> params.JObj? && PyFloat(FieldOr(params.fields, "seconds", FieldOr(params.fields, "s", JFloat(1.0)))).Some?
    ensures p.Run? ==> Some(p.cmd.seconds) == PyFloat(FieldOr(params.fields, "seconds", FieldOr(params.fields, "s", JFloat(1.0))))
    ensures p.Refuse? ==> p.result == D.Failed(D.Tap, Raised)
    ensures Failing(p)
  {
    match ParamGet2(params, "seconds", "s", JFloat(1.0))
    case None => Refuse(D.Failed(D.Tap, Raised))
    case Some(v) =>
      (match PyFloat(v)
       case None => Refuse(D.Failed(D.Tap, Raised))
       case Some(r) => Run(D.WaitFor(r)))
  }

  /** The plan for a parsed action; `None` where `.lower()` raises before
    * the handler is entered. */
  function Dispatch(data: Dict<Json>, elements: seq<D.UIElement>, show: real -> string): (p: Option<Plan>)
    ensures p.None? <==> ActionWord(data).None?
    ensures p.Some? ==> Failing(p.value)
  {
    var params := FieldOr(data, "params", JObj([]));
    match ActionWord(data)
    case None => None
    case Some(a) =>
      Some(
        if a == "tap" then PlanTap(params, elements, show)
        else if a == "swipe" then PlanSwipe(params)
        else if a == "type" then PlanType(params)
        else if a == "back" then Run(D.BackKey)
        else if a == "home" then Run(D.HomeKey)
        else if a == "launch_app" || a == "launch" then PlanLaunch(params, show)
        else if a == "wait" then PlanWait(params)
        else Refuse(D.Failed(D.Tap, "Unknown action: " + a)))
  }

  /** `_execute_action` with the device's shell outcome `shell`; `None` where
    * it raises to the caller. */
  function ExecuteAction(data: Dict<Json>, elements: seq<D.UIElement>, shell: Option<string>, show: real -> string)
    : (r: Option<D.ActionResult>)
    ensures r.None? <==> ActionWord(data).None?
    ensures r.Some? && !r.value.success ==> r.value.error.Some?
  {
    match Dispatch(data, elements, show)
    case None => None
    case Some(Refuse(res)) => Some(res)
    case Some(Run(cmd)) =>
      match D.Perform(cmd, shell, show)
      // `element.center` raised inside the handler
      case None => Some(D.Failed(D.Tap, Raised))
      case Some(res) => Some(res)
  }

  /** Only a command the device carried out succeeds: a wait, or a shell
    * call that did not raise. */
  lemma SuccessNeedsDevice(data: Dict<Json>, elements: seq<D.UIElement>, shell: Option<string>, show: real -> string)
    requires ExecuteAction(data, elements, shell, show).Some?
    ensures ExecuteAction(data, elements, shell, show).value.success ==>
      Dispatch(data, elements, show).value.Run? && (Dispatch(data, elements, show).value.cmd.WaitFor? || shell.None?)
  {
  }

  /** A refused action never reaches the device: the shell outcome does not
    * matter. */
  lemma RefusalIgnoresDevice(data: Dict<Json>, elements: seq<D.UIElement>, s1: Option<string>, s2: Option<string>, show: real -> string)
    requires Dispatch(data, elements, show).Some? && Dispatch(data, elements, show).value.Refuse?
    ensures ExecuteAction(data, elements, s1, show) == ExecuteAction(data, elements, s2, show)
  {
  }

  /** Without parameters, each action that needs one is refused with its own
    * message, and a wait lasts one second. */
  lemma NoParams(a: string, elements: seq<D.UIElement>, show: real -> string)
    ensures var r := ExecuteAction([("action", JStr(a))], elements, None, show).value;
      (Lower(a) == "tap" ==> r == D.Failed(D.Tap, MissingTap))
      && (Lower(a) == "swipe" ==> r == D.Failed(D.Swipe, InvalidSwipe))
      && (Lower(a) == "type" ==> r == D.Failed(D.Type, MissingText))
      && (Lower(a) == "launch" ==> r == D.Failed(D.LaunchApp, MissingPackage))
      && (Lower(a) == "wait" ==> r.success && r.action == D.Typed(D.Wait) && r.message == "Waited " + show(1.0) + "s")
  {
    var data := [("action", JStr(a))];
    assert FieldOr(data, "params", JObj([])) == JObj([]) by {
      assert "params"[0] != "action"[0];
    }
    var w := Lower(a);
    assert ActionWord(data) == Some(w);
    var empty := JObj([]);
    if w == "tap" {
      assert Dispatch(data, elements, show) == Some(PlanTap(empty, elements, show));
      assert PlanTap(empty, elements, show) == Refuse(D.Failed(D.Tap, MissingTap));
      PlannedOutcome(data, elements, show);
    } else if w == "swipe" {
      assert !AllIn(["x1", "y1", "x2", "y2"], empty) by {
        assert PyIn("x1", empty) == Some(false);
      }
      assert Dispatch(data, elements, show) == Some(PlanSwipe(empty));
      PlannedOutcome(data, elements, show);
    } else if w == "type" {
      assert Dispatch(data, elements, show) == Some(PlanType(empty));
      PlannedOutcome(data, elements, show);
    } else if w == "launch" {
      assert Dispatch(data, elements, show) == Some(PlanLaunch(empty, show));
      PlannedOutcome(data, elements, show);
    } else if w == "wait" {
      assert Dispatch(data, elements, show) == Some(PlanWait(empty));
      assert PlanWait(empty) == Run(D.WaitFor(1.0));
      PlannedOutcome(data, elements, show);
    }
  }

  /** Without a shell error, the outcome of a planned action. */
  lemma PlannedOutcome(data: Dict<Json>, elements: seq<D.UIElement>, show: real -> string)
    requires Dispatch(data, elements, show).Some?
    ensures var p := Dispatch(data, elements, show).value;
      ExecuteAction(data, elements, None, show)
        == (if p.Refuse? then Some(p.result)
            else if D.Perform(p.cmd, None, show).None? then Some(D.Failed(D.Tap, Raised))
            else D.Perform(p.cmd, None, show))
  {
  }

  /** Any other word is reported as unknown, under the tap action type. */
  lemma UnknownAction(data: Dict<Json>, elements: seq<D.UIElement>, shell: Option<string>, show: real -> string)
    requires ActionWord(data).Some?
    requires ActionWord(data).value !in ["tap", "swipe", "type", "back", "home", "launch_app", "launch", "wait"]
    ensures ExecuteAction(data, elements, shell, show) == Some(D.Failed(D.Tap, "Unknown action: " + ActionWord(data).value))
  {
  }

  /** An in-range integer `element_index` taps that element (whatever `ei`
    * says); one out of range is refused with its value. */
  lemma TapByIndex(a: string, i: int, rest: Dict<Json>, elements: seq<D.UIElement>, shell: Option<string>, show: real -> string)
    requires Lower(a) == "tap"
    ensures var data := [("action", JStr(a)), ("params", JObj([("element_index", JInt(i))] + rest))];
      var r := ExecuteAction(data, elements, shell, show).value;
      (0 <= i < |elements| && D.Center(elements[i]).Some? ==> Some(r) == D.Perform(D.TapOn(elements[i]), shell, show))
      && (!(0 <= i < |elements|) ==> r == D.Failed(D.Tap, "Invalid element index: " + IntToStr(i)))
  {
    var data := [("action", JStr(a)), ("params", JObj([("element_index", JInt(i))] + rest))];
    assert "params" != "action" by {
      assert "params"[0] != "action"[0];
    }
    assert data[1..] == [("params", JObj([("element_index", JInt(i))] + rest))];
    assert Get(data[1..], "params") == Some(JObj([("element_index", JInt(i))] + rest));
    var params := FieldOr(data, "params", JObj([]));
    assert params == JObj([("element_index", JInt(i))] + rest);
    assert ParamGet2(params, "element_index", "ei", JInt(0)) == Some(JInt(i));
  }
}
