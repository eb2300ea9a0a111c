// The language-model client: chat messages, the decoding of a chat
// completion body, the retry schedule of the transport, the decoding of a
// streamed completion, and the token-reduction metric. HTTP is outside the
// model: each request attempt's outcome and each streamed line is given.
module Ollama {
  import opened Wrappers
  import opened Seqs
  import opened PyStr
  import opened Dicts
  import opened Json

  datatype ChatMessage = ChatMessage(
    role: string,
    content: string,
    toolCalls: Option<seq<Dict<Json>>>,
    toolCallId: Option<string>)

  predicate ToolCallsTruthy(m: ChatMessage)
  {
    m.toolCalls.Some? && m.toolCalls.value != []
  }

  predicate ToolCallIdTruthy(m: ChatMessage)
  {
    m.toolCallId.Some? && m.toolCallId.value != ""
  }

  /** `to_dict`: role and content, then tool_calls and tool_call_id only when truthy. */
  function ToDict(m: ChatMessage): (d: Dict<Json>)
    ensures Keys(d) == ["role", "content"] + (if ToolCallsTruthy(m) then ["tool_calls"] else [])
      + (if ToolCallIdTruthy(m) then ["tool_call_id"] else [])
    ensures d[0] == ("role", JStr(m.role)) && d[1] == ("content", JStr(m.content))
  {
    var calls: Dict<Json> := if ToolCallsTruthy(m) then [("tool_calls", JArr(ObjectsOf(m.toolCalls.value)))] else [];
    var id: Dict<Json> := if ToolCallIdTruthy(m) then [("tool_call_id", JStr(m.toolCallId.value))] else [];
    [("role", JStr(m.role)), ("content", JStr(m.content))] + calls + id
  }

  /** The optional keys are present exactly when their fields are truthy, and
    * then hold those fields. */
  lemma ToDictOptional(m: ChatMessage)
    ensures HasKey(ToDict(m), "tool_calls") <==> ToolCallsTruthy(m)
    ensures HasKey(ToDict(m), "tool_call_id") <==> ToolCallIdTruthy(m)
    ensures ToolCallsTruthy(m) ==> Get(ToDict(m), "tool_calls") == Some(JArr(ObjectsOf(m.toolCalls.value)))
    ensures ToolCallIdTruthy(m) ==> Get(ToDict(m), "tool_call_id") == Some(JStr(m.toolCallId.value))
  {
    var d := ToDict(m);
    KeyNotPresent(d, "tool_calls");
    KeyNotPresent(d, "tool_call_id");
    if ToolCallsTruthy(m) {
      assert Keys(d)[2] == "tool_calls";
      GetAt(d, 2);
    }
    if ToolCallIdTruthy(m) {
      assert Keys(d)[|d| - 1] == "tool_call_id";
      GetAt(d, |d| - 1);
    }
  }

  function ObjectsOf(ds: seq<Dict<Json>>): (r: seq<Json>)
    ensures |r| == |ds| && forall i :: 0 <= i < |ds| ==> r[i] == JObj(ds[i])
  {
    seq(|ds|, i requires 0 <= i < |ds| => JObj(ds[i]))
  }

  /** A key absent from the key list is not a key of the dictionary. */
  lemma KeyNotPresent(d: Dict<Json>, k: string)
    ensures HasKey(d, k) <==> k in Keys(d)
  {
    if HasKey(d, k) {
      var i :| 0 <= i < |d| && d[i].0 == k;
      assert Keys(d)[i] == k;
    }
  }

  /** With distinct keys before it, the entry at `i` is what `get` finds. */
  lemma GetAt(d: Dict<Json>, i: nat)
    requires i < |d|
    requires forall j :: 0 <= j < i ==> d[j].0 != d[i].0
    ensures Get(d, d[i].0) == Some(d[i].1)
  {
    if i > 0 {
      GetAt(d[1..], i - 1);
    }
  }

  // ---------------------------------------------------------------------------
  // Decoding a chat completion body

  /** The fields of a chat completion, as decoded values: Python stores them
    * without checking their types. */
  datatype ChatResponse = ChatResponse(
    role: Json,
    content: Json,
    toolCalls: Json,
    model: Json,
    totalTokens: Json,
    promptTokens: Json,
    completionTokens: Json,
    finishReason: Json)

  /** `obj[k]` on a decoded value: `None` where Python raises. */
  function Index(obj: Json, k: string): (r: Option<Json>)
    ensures r.Some? <==> obj.JObj? && HasKey(obj.fields, k)
  {
    if obj.JObj? then Get(obj.fields, k) else None
  }

  /** `seq[0]` on a decoded value: only a non-empty list yields an element
    * that can be indexed by a key afterwards. */
  function First(v: Json): Option<Json>
  {
    if v.JArr? && v.items != [] then Some(v.items[0]) else None
  }

  /** `obj.get(k, default)`: `None` where the value has no `get`. */
  function GetDefault(obj: Json, k: string, default: Json): (r: Option<Json>)
    ensures r.Some? <==> obj.JObj?
    ensures obj.JObj? && !HasKey(obj.fields, k) ==> r == Some(default)
  {
    if obj.JObj? then Some(GetOr(obj.fields, k, default)) else None
  }

  /** The response `chat` builds from a completion body; `None` where a
    * required field is missing or a container has the wrong type. */
  function ChatOf(body: Json): (r: Option<ChatResponse>)
    ensures r.Some? ==> body.JObj? && HasKey(body.fields, "choices") && HasKey(body.fields, "model")
    ensures r.Some? ==> Index(body, "model") == Some(r.value.model)
  {
    match Index(body, "choices")
    case None => None
    case Some(choices) =>
      match First(choices)
      case None => None
      case Some(choice) =>
        match Index(choice, "message")
        case None => None
        case Some(message) =>
          match Index(message, "role")
          case None => None
          case Some(role) =>
            match Index(body, "model")
            case None => None
            case Some(model) =>
              var usage := GetOr(body.fields, "usage", JObj([]));
              if !usage.JObj? then None
              else
                Some(ChatResponse(
                  role,
                  GetOr(message.fields, "content", JStr("")),
                  GetOr(message.fields, "tool_calls", JNull),
                  model,
                  GetOr(usage.fields, "total_tokens", JInt(0)),
                  GetOr(usage.fields, "prompt_tokens", JInt(0)),
                  GetOr(usage.fields, "completion_tokens", JInt(0)),
                  GetOr(choice.fields, "finish_reason", JStr("stop"))))
  }

  /** Missing usage counts are 0 and a missing finish reason is "stop". */
  lemma ChatDefaults(body: Json)
    requires ChatOf(body).Some?
    ensures !HasKey(body.fields, "usage") ==>
      ChatOf(body).value.totalTokens == JInt(0) && ChatOf(body).value.promptTokens == JInt(0)
      && ChatOf(body).value.completionTokens == JInt(0)
    ensures var choice := First(Index(body, "choices").value).value;
      choice.JObj? && (!HasKey(choice.fields, "finish_reason") ==> ChatOf(body).value.finishReason == JStr("stop"))
  {
  }

  // ---------------------------------------------------------------------------
  // The transport retry schedule

  /** What one request attempt did: returned a body, raised an HTTP error, or
    * raised anything else. */
  datatype Attempt = Body(body: Json) | HttpError(message: string) | OtherError(message: string)

  /** How `_request_with_retry` ends: with a body, or raising. With no
    * attempt at all it raises `None`, which Python reports as a TypeError. */
  datatype RequestOutcome = Returned(body: Json) | RaisedHttp(message: string) | RaisedOther(message: string) | RaisedNone

  /** The wait before retry `k + 1`: 1, 2, 4, 4, … seconds. */
  function Delay(k: nat): (d: int)
    ensures d == if k == 0 then 1 else if k == 1 then 2 else 4
  {
    [1, 2, 4][if k < 2 then k else 2]
  }

  /** The attempts from `k` on, given the last HTTP error so far: the outcome,
    * the waits taken and the number of attempts made. */
  function RetryFrom(maxRetries: int, attempts: seq<Attempt>, k: nat, lastError: Option<string>): (r: (RequestOutcome, seq<int>, nat))
    requires maxRetries + 1 <= |attempts|
    decreases maxRetries + 1 - k
  {
    if k >= maxRetries + 1 then
      (match lastError case None => RaisedNone case Some(e) => RaisedHttp(e), [], 0)
    else match attempts[k]
      case Body(b) => (Returned(b), [], 1)
      case OtherError(e) => (RaisedOther(e), [], 1)
      case HttpError(e) =>
        var rest := RetryFrom(maxRetries, attempts, k + 1, Some(e));
        (rest.0, (if k < maxRetries then [Delay(k)] else []) + rest.1, rest.2 + 1)
  }

  /** The whole schedule, `attempts[k]` being what attempt `k` does. */
  function Retry(maxRetries: int, attempts: seq<Attempt>): (RequestOutcome, seq<int>, nat)
    requires maxRetries + 1 <= |attempts|
  {
    RetryFrom(maxRetries, attempts, 0, None)
  }

  /** `_request_with_retry`: returns the first body, stops at the first error
    * that is not an HTTP error, and raises the last HTTP error when every
    * attempt failed. */
  method RequestWithRetry(maxRetries: int, attempts: seq<Attempt>)
    returns (outcome: RequestOutcome, sleeps: seq<int>, made: nat)
    requires maxRetries + 1 <= |attempts|
    ensures (outcome, sleeps, made) == Retry(maxRetries, attempts)
  {
    var lastError: Option<string> := None;
    sleeps := [];
    var attempt := 0;
    assert sleeps + Retry(maxRetries, attempts).1 == Retry(maxRetries, attempts).1;
    while attempt < maxRetries + 1
      invariant 0 <= attempt && (maxRetries + 1 >= 0 ==> attempt <= maxRetries + 1)
      invariant Retry(maxRetries, attempts).0 == RetryFrom(maxRetries, attempts, attempt, lastError).0
      invariant Retry(maxRetries, attempts).1 == sleeps + RetryFrom(maxRetries, attempts, attempt, lastError).1
      invariant Retry(maxRetries, attempts).2 == attempt + RetryFrom(maxRetries, attempts, attempt, lastError).2
      decreases maxRetries + 1 - attempt
    {
      ghost var next := RetryFrom(maxRetries, attempts, attempt, lastError);
      match attempts[attempt]
      case Body(b) =>
        assert sleeps + next.1 == sleeps;
        outcome, made := Returned(b), attempt + 1;
        return;
      case OtherError(e) =>
        assert sleeps + next.1 == sleeps;
        outcome, made := RaisedOther(e), attempt + 1;
        return;
      case HttpError(e) =>
        var rest := RetryFrom(maxRetries, attempts, attempt + 1, Some(e));
        assert next.1 == (if attempt < maxRetries then [Delay(attempt)] else []) + rest.1;
        lastError := Some(e);
        if attempt < maxRetries {
          assert sleeps + next.1 == (sleeps + [Delay(attempt)]) + rest.1;
          sleeps := sleeps + [Delay(attempt)];
        } else {
          assert sleeps + next.1 == sleeps + rest.1;
        }
        attempt := attempt + 1;
    }
    assert sleeps + RetryFrom(maxRetries, attempts, attempt, lastError).1 == sleeps;
    outcome := match lastError case None => RaisedNone case Some(e) => RaisedHttp(e);
    made := attempt;
  }

  /** The number of attempts the schedule allows: `range(max_retries + 1)`. */
  function AttemptLimit(maxRetries: int): nat
  {
    if maxRetries + 1 > 0 then maxRetries + 1 else 0
  }

  /** How the schedule ends when attempts `0..stop-1` raise HTTP errors and
    * attempt `stop` (if within the limit) does not: `stop + 1` attempts and
    * `stop` waits of 1, 2, 4, 4, … seconds, and the outcome of attempt `stop`;
    * or, with every allowed attempt failing, no wait after the last one and
    * its error raised. */
  lemma RetrySchedule(maxRetries: int, attempts: seq<Attempt>, stop: nat)
    requires maxRetries + 1 <= |attempts|
    requires stop <= AttemptLimit(maxRetries)
    requires forall j :: 0 <= j < stop ==> attempts[j].HttpError?
    requires stop < AttemptLimit(maxRetries) ==> !attempts[stop].HttpError?
    ensures var r := Retry(maxRetries, attempts);
      var n := AttemptLimit(maxRetries);
      r.2 == (if stop < n then stop + 1 else stop) &&
      |r.1| == (if stop < n || stop == 0 then stop else stop - 1) &&
      (forall j :: 0 <= j < |r.1| ==> r.1[j] == Delay(j)) &&
      r.0 == (if stop < n then (if attempts[stop].Body? then Returned(attempts[stop].body) else RaisedOther(attempts[stop].message))
              else if stop == 0 then RaisedNone else RaisedHttp(attempts[stop - 1].message))
  {
    RetryFromSchedule(maxRetries, attempts, 0, None, stop);
  }

  lemma {:induction false} RetryFromSchedule(maxRetries: int, attempts: seq<Attempt>, k: nat, lastError: Option<string>, stop: nat)
    requires maxRetries + 1 <= |attempts|
    requires k <= stop <= AttemptLimit(maxRetries)
    requires forall j :: 0 <= j < stop ==> attempts[j].HttpError?
    requires stop < AttemptLimit(maxRetries) ==> !attempts[stop].HttpError?
    requires k > 0 ==> attempts[k - 1].HttpError? && lastError == Some(attempts[k - 1].message)
    requires k == 0 ==> lastError.None?
    ensures var r := RetryFrom(maxRetries, attempts, k, lastError);
      var n := AttemptLimit(maxRetries);
      r.2 == (if stop < n then stop + 1 - k else stop - k) &&
      |r.1| == (if stop < n || stop == 0 then stop - k else if k < stop then stop - 1 - k else 0) &&
      (forall j :: 0 <= j < |r.1| ==> r.1[j] == Delay(k + j)) &&
      r.0 == (if stop < n then (if attempts[stop].Body? then Returned(attempts[stop].body) else RaisedOther(attempts[stop].message))
              else if stop == 0 then RaisedNone else RaisedHttp(attempts[stop - 1].message))
    decreases stop - k
  {
    if k < stop {
      RetryFromSchedule(maxRetries, attempts, k + 1, Some(attempts[k].message), stop);
    }
  }

  /** `_request_with_retry` makes at most `max_retries + 1` attempts. */
  lemma {:induction false} RetryBound(maxRetries: int, attempts: seq<Attempt>, k: nat, lastError: Option<string>)
    requires maxRetries + 1 <= |attempts|
    ensures RetryFrom(maxRetries, attempts, k, lastError).2 <= AttemptLimit(maxRetries) - k || RetryFrom(maxRetries, attempts, k, lastError).2 == 0
    decreases maxRetries + 1 - k
  {
    if k < maxRetries + 1 && attempts[k].HttpError? {
      RetryBound(maxRetries, attempts, k + 1, Some(attempts[k].message));
    }
  }

  // ---------------------------------------------------------------------------
  // Streamed completions: the `data: ` lines of server-sent events

  predicate IsDataLine(line: string)
  {
    StartsWith(line, "data: ")
  }

  /** The content a decoded chunk carries: `Some(None)` when its delta has no
    * truthy content, `None` where reading `["choices"][0]` or a `get` raises. */
  function ChunkContent(chunk: Json): (r: Option<Option<Json>>)
    ensures r.Some? && r.value.Some? ==> Truthy(r.value.value)
  {
    match Index(chunk, "choices")
    case None => None
    case Some(choices) =>
      match First(choices)
      case None => None
      case Some(choice) =>
        match GetDefault(choice, "delta", JObj([]))
        case None => None
        case Some(delta) =>
          match GetDefault(delta, "content", JNull)
          case None => None
          case Some(content) => Some(if Truthy(content) then Some(content) else None)
  }

  /** What `chat_stream` yields from the response lines, and whether it
    * ended by raising; `decode` is `json.loads`, `None` for a decoding error. */
  datatype Streamed = Streamed(chunks: seq<Json>, raised: bool)

  function Stream(lines: seq<string>, decode: string -> Option<Json>): (r: Streamed)
    ensures forall i :: 0 <= i < |r.chunks| ==> Truthy(r.chunks[i])
    ensures |r.chunks| <= |lines|
  {
    if lines == [] then Streamed([], false)
    else if !IsDataLine(lines[0]) then Stream(lines[1..], decode)
    else
      var data := lines[0][6..];
      if data == "[DONE]" then Streamed([], false)
      else match decode(data)
        case None => Stream(lines[1..], decode)
        case Some(chunk) =>
          match ChunkContent(chunk)
          case None => Streamed([], true)
          case Some(None) => Stream(lines[1..], decode)
          case Some(Some(c)) =>
            var rest := Stream(lines[1..], decode);
            Streamed([c] + rest.chunks, rest.raised)
  }

  /** Lines that do not start with "data: " play no part. */
  lemma {:induction false} StreamDataLinesOnly(lines: seq<string>, decode: string -> Option<Json>)
    ensures Stream(lines, decode) == Stream(Filter(lines, IsDataLine), decode)
  {
    if lines != [] {
      StreamDataLinesOnly(lines[1..], decode);
      var kept := Filter(lines, IsDataLine);
      if IsDataLine(lines[0]) {
        assert kept == [lines[0]] + Filter(lines[1..], IsDataLine);
        assert kept[1..] == Filter(lines[1..], IsDataLine);
        StreamSameHead(lines, kept, decode);
      } else {
        assert kept == Filter(lines[1..], IsDataLine);
        assert Stream(lines, decode) == Stream(lines[1..], decode);
      }
    }
  }

  /** Two line lists with the same first line and equally read tails are read alike. */
  lemma StreamSameHead(a: seq<string>, b: seq<string>, decode: string -> Option<Json>)
    requires a != [] && b != [] && a[0] == b[0]
    requires Stream(a[1..], decode) == Stream(b[1..], decode)
    ensures Stream(a, decode) == Stream(b, decode)
  {
  }

  /** Nothing after the "data: [DONE]" line is read. */
  lemma {:induction false} StreamStopsAtDone(before: seq<string>, after: seq<string>, decode: string -> Option<Json>)
    ensures Stream(before + ["data: [DONE]"] + after, decode) == Stream(before + ["data: [DONE]"], decode)
  {
    var done := "data: [DONE]";
    assert IsDataLine(done) && done[6..] == "[DONE]";
    if before == [] {
      assert (before + [done] + after)[0] == done && (before + [done])[0] == done;
    } else {
      StreamStopsAtDone(before[1..], after, decode);
      assert (before + [done] + after)[1..] == before[1..] + [done] + after;
      assert (before + [done])[1..] == before[1..] + [done];
    }
  }

  /** Lines that do not decode are skipped. */
  lemma StreamSkipsUndecodable(line: string, rest: seq<string>, decode: string -> Option<Json>)
    requires IsDataLine(line) && line[6..] != "[DONE]" && decode(line[6..]).None?
    ensures Stream([line] + rest, decode) == Stream(rest, decode)
  {
    assert ([line] + rest)[1..] == rest;
  }

  // ---------------------------------------------------------------------------
  // Token metrics and the client object

  class TokenMetrics {
    var baselineTokens: int
    var comptextTokens: int
    var reductionPercent: real

    constructor ()
      ensures baselineTokens == 0 && comptextTokens == 0 && reductionPercent == 0.0
    {
      baselineTokens, comptextTokens, reductionPercent := 0, 0, 0.0;
    }

    /** `calculate_reduction`: sets the percentage only for a positive baseline. */
    method CalculateReduction()
      modifies this`reductionPercent
      ensures baselineTokens > 0 ==>
        reductionPercent == (baselineTokens - comptextTokens) as real / baselineTokens as real * 100.0
      ensures baselineTokens <= 0 ==> reductionPercent == old(reductionPercent)
    {
      if baselineTokens > 0 {
        reductionPercent := (baselineTokens - comptextTokens) as real / baselineTokens as real * 100.0;
      }
    }
  }

  /** A reduction computed from counts with `0 <= comptext <= baseline` lies in [0, 100]. */
  lemma ReductionInRange(baseline: int, comptext: int)
    requires 0 <= comptext <= baseline && baseline > 0
    ensures 0.0 <= (baseline - comptext) as real / baseline as real * 100.0 <= 100.0
  {
    assert (baseline - comptext) as real == baseline as real - comptext as real;
    RatioBounds(baseline as real, comptext as real);
  }

  /** The request headers: the content type, and a bearer token for a truthy key. */
  function Headers(apiKey: Option<string>): (h: Dict<string>)
    ensures Keys(h) == ["Content-Type"] + (if apiKey.Some? && apiKey.value != "" then ["Authorization"] else [])
    ensures h[0].1 == "application/json"
    ensures apiKey.Some? && apiKey.value != "" ==> h[1].1 == "Bearer " + apiKey.value
  {
    [("Content-Type", "application/json")]
      + (if apiKey.Some? && apiKey.value != "" then [("Authorization", "Bearer " + apiKey.value)] else [])
  }

  class OllamaCloudClient {
    var apiKey: Option<string>
    /** The open HTTP client's headers; `None` while no client is open. */
    var client: Option<Dict<string>>
    var metrics: TokenMetrics

    constructor (apiKey: Option<string>)
      ensures this.apiKey == apiKey && client.None?
      ensures fresh(metrics) && metrics.baselineTokens == 0 && metrics.reductionPercent == 0.0
    {
      this.apiKey := apiKey;
      client := None;
      metrics := new TokenMetrics();
    }

    /** `_ensure_client`: opens a client once, and keeps an open one. */
    method EnsureClient()
      modifies this`client
      ensures old(client).None? ==> client == Some(Headers(apiKey))
      ensures old(client).Some? ==> client == old(client)
    {
      if client.None? {
        client := Some(Headers(apiKey));
      }
    }

    /** `close` */
    method Close()
      modifies this`client
      ensures client.None?
    {
      client := None;
    }

    /** `reset_metrics`: a fresh, zeroed metrics record. */
    method ResetMetrics()
      modifies this`metrics
      ensures fresh(metrics) && metrics.baselineTokens == 0 && metrics.comptextTokens == 0 && metrics.reductionPercent == 0.0
    {
      metrics := new TokenMetrics();
    }
  }
}
