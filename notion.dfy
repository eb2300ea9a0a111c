// The codex kept in a Notion database: rich text to plain text, the typed
// page properties, pages parsed into entries, blocks rendered as Markdown,
// and the retry with exponential backoff that wraps every API call. The
// Notion API itself is outside: what a call returns or raises is given.
module Notion {
  import opened Wrappers
  import opened Seqs
  import opened PyStr
  import opened Dicts
  import opened Json
  import Validation
  import Catalog
  import AgentDispatch

  // ---------------------------------------------------------------------------
  // Rich text

  /** One rich-text item's "plain_text" (default ""); `None` where the item is
    * not an object or the text is not a string, which makes the join raise. */
  function PlainText(item: Json): (r: Option<string>)
    ensures item.JObj? && !HasKey(item.fields, "plain_text") ==> r == Some("")
    ensures !item.JObj? ==> r.None?
  {
    if item.JObj? then
      match FieldOr(item.fields, "plain_text", JStr(""))
      case JStr(s) => Some(s)
      case _ => None
    else None
  }

  /** `_extract_text_from_rich_text`: the items' plain texts joined and
    * sanitised; `None` where Python raises. */
  function ExtractText(rt: Json): (r: Option<string>)
    ensures !Truthy(rt) ==> r == Some("")
    ensures Truthy(rt) && !rt.JArr? ==> r.None?
    ensures rt.JArr? && rt.items != [] ==> (r.Some? <==> forall k :: 0 <= k < |rt.items| ==> PlainText(rt.items[k]).Some?)
    ensures r.Some? ==> forall c :: c in r.value ==> Validation.Printable(c)
  {
    if !Truthy(rt) then Some("")
    else if rt.JArr? then
      match MapAll(rt.items, PlainText)
      case None => None
      case Some(parts) => Some(Plain(parts))
    else None
  }

  /** `"".join` of several parts is their concatenation. */
  lemma {:induction false} JoinEmptyAppend(a: seq<string>, b: seq<string>)
    ensures Join(a + b, "") == Join(a, "") + Join(b, "")
  {
    if a == [] {
      assert a + b == b;
    } else if |a| == 1 {
      if b != [] {
        assert (a + b)[1..] == b;
      } else {
        assert a + b == a;
      }
    } else {
      assert (a + b)[1..] == a[1..] + b;
      JoinEmptyAppend(a[1..], b);
    }
  }

  lemma SanitizeAppend(x: string, y: string)
    ensures Validation.Sanitize(x + y) == Validation.Sanitize(x) + Validation.Sanitize(y)
  {
    FilterAppend(x, y, (c: char) => Validation.Printable(c));
  }

  lemma MapAllAppend<T, U>(a: seq<T>, b: seq<T>, f: T -> Option<U>)
    requires MapAll(a, f).Some? && MapAll(b, f).Some?
    ensures MapAll(a + b, f) == Some(MapAll(a, f).value + MapAll(b, f).value)
  {
    var va, vb := MapAll(a, f).value, MapAll(b, f).value;
    assert forall k :: 0 <= k < |a + b| ==> f((a + b)[k]) == Some((va + vb)[k]) by {
      forall k | 0 <= k < |a + b|
        ensures f((a + b)[k]) == Some((va + vb)[k])
      {
        if k >= |a| {
          assert (a + b)[k] == b[k - |a|];
        }
      }
    }
    MapAllEach(a + b, f, va + vb);
  }

  /** The sanitised concatenation of plain texts. */
  function Plain(parts: seq<string>): string
  {
    Validation.Sanitize(Join(parts, ""))
  }

  lemma PlainAppend(pa: seq<string>, pb: seq<string>)
    ensures Plain(pa + pb) == Plain(pa) + Plain(pb)
  {
    JoinEmptyAppend(pa, pb);
    SanitizeAppend(Join(pa, ""), Join(pb, ""));
  }

  /** The text of two rich-text runs one after the other is the text of the
    * first followed by the text of the second. */
  lemma ExtractTextAppend(a: seq<Json>, b: seq<Json>)
    requires ExtractText(JArr(a)).Some? && ExtractText(JArr(b)).Some?
    ensures ExtractText(JArr(a + b)) == Some(ExtractText(JArr(a)).value + ExtractText(JArr(b)).value)
  {
    if a == [] {
      assert a + b == b;
      assert ExtractText(JArr(a)).value + ExtractText(JArr(b)).value == ExtractText(JArr(b)).value;
    } else if b == [] {
      assert a + b == a;
      assert ExtractText(JArr(a)).value + ExtractText(JArr(b)).value == ExtractText(JArr(a)).value;
    } else {
      ExtractTextAppendNonEmpty(a, b);
    }
  }

  lemma ExtractTextAppendNonEmpty(a: seq<Json>, b: seq<Json>)
    requires a != [] && b != []
    requires ExtractText(JArr(a)).Some? && ExtractText(JArr(b)).Some?
    ensures ExtractText(JArr(a + b)) == Some(ExtractText(JArr(a)).value + ExtractText(JArr(b)).value)
  {
    MapAllAppend(a, b, PlainText);
    var pa, pb := MapAll(a, PlainText).value, MapAll(b, PlainText).value;
    ExtractTextOf(a);
    ExtractTextOf(b);
    ExtractTextOf(a + b);
    PlainAppend(pa, pb);
  }

  lemma ExtractTextOf(items: seq<Json>)
    requires items != [] && MapAll(items, PlainText).Some?
    ensures ExtractText(JArr(items)) == Some(Plain(MapAll(items, PlainText).value))
  {
  }

  // ---------------------------------------------------------------------------
  // Page properties

  /** `page["properties"].get(name, {})` as an object; `None` where any step
    * raises. */
  function Prop(page: Json, name: string): (r: Option<Dict<Json>>)
    ensures r.Some? ==> page.JObj? && HasKey(page.fields, "properties")
  {
    if page.JObj? then
      match FieldOr(page.fields, "properties", JNull)
      case JObj(props) =>
        (match FieldOr(props, name, JObj([]))
         case JObj(prop) => Some(prop)
         case _ => None)
      case _ => None
    else None
  }

  /** A "title" or "rich_text" property's text; `None` is Python's `None`
    * after a caught error. */
  function TextProperty(page: Json, name: string, key: string): (r: Option<string>)
    ensures Prop(page, name).None? ==> r.None?
    ensures Prop(page, name).Some? && !HasKey(Prop(page, name).value, key) ==> r == Some("")
    ensures Prop(page, name).Some? && HasKey(Prop(page, name).value, key) ==>
      r == ExtractText(FieldOr(Prop(page, name).value, key, JNull))
  {
    match Prop(page, name)
    case None => None
    case Some(prop) => ExtractText(FieldOr(prop, key, JArr([])))
  }

  /** A "select" property's name: `None` for an empty or absent selection and
    * after any error. */
  function SelectProperty(page: Json, name: string): (r: Json)
    ensures Prop(page, name).None? ==> r == JNull
    ensures Prop(page, name).Some? && !Truthy(FieldOr(Prop(page, name).value, "select", JNull)) ==> r == JNull
    ensures r != JNull ==> var sel := FieldOr(Prop(page, name).value, "select", JNull);
      sel.JObj? && r == FieldOr(sel.fields, "name", JNull)
  {
    match Prop(page, name)
    case None => JNull
    case Some(prop) =>
      var sel := FieldOr(prop, "select", JNull);
      if !Truthy(sel) then JNull
      else if sel.JObj? then FieldOr(sel.fields, "name", JNull)
      else JNull
  }

  /** One selected option's "name"; `.get` raises on anything but an object. */
  function OptionName(item: Json): Option<Json>
  {
    if item.JObj? then Some(FieldOr(item.fields, "name", JNull)) else None
  }

  /** A "multi_select" property's names, in order; `None` after an error. */
  function MultiSelectProperty(page: Json, name: string): (r: Option<seq<Json>>)
    ensures Prop(page, name).None? ==> r.None?
    ensures Prop(page, name).Some? && !HasKey(Prop(page, name).value, "multi_select") ==> r == Some([])
    ensures r.Some? && r.value != [] ==> var ms := FieldOr(Prop(page, name).value, "multi_select", JArr([]));
      ms.JArr? && |r.value| == |ms.items|
    ensures Prop(page, name).Some? ==> var ms := FieldOr(Prop(page, name).value, "multi_select", JArr([]));
      ms.JArr? ==>
        (r.Some? <==> forall k :: 0 <= k < |ms.items| ==> ms.items[k].JObj?) &&
        (r.Some? ==> |r.value| == |ms.items| &&
                     forall k :: 0 <= k < |ms.items| ==> ms.items[k].JObj? && r.value[k] == FieldOr(ms.items[k].fields, "name", JNull))
    ensures Prop(page, name).Some? ==> var ms := FieldOr(Prop(page, name).value, "multi_select", JArr([]));
      !ms.JArr? ==> (r.Some? <==> ms == JStr("") || ms == JObj([])) && (r.Some? ==> r.value == [])
  {
    match Prop(page, name)
    case None => None
    case Some(prop) =>
      match FieldOr(prop, "multi_select", JArr([]))
      case JArr(items) => MapAll(items, OptionName)
      case JStr(s) => if s == "" then Some([]) else None
      case JObj(fs) => if fs == [] then Some([]) else None
      case _ => None
  }

  /** A "url" property's value. */
  function UrlProperty(page: Json, name: string): (r: Json)
    ensures Prop(page, name).None? ==> r == JNull
    ensures Prop(page, name).Some? ==> r == FieldOr(Prop(page, name).value, "url", JNull)
  {
    match Prop(page, name)
    case None => JNull
    case Some(prop) => FieldOr(prop, "url", JNull)
  }

  function OrNone(s: Option<string>): Json
  {
    match s case None => JNull case Some(t) => JStr(t)
  }

  /** `_get_property_value`: the value of a property of a known type, and
    * Python's `None` for any other type and after any error. */
  function PropertyValue(page: Json, name: string, kind: string): (r: Json)
    ensures kind != "title" && kind != "rich_text" && kind != "select" && kind != "multi_select" && kind != "url" ==> r == JNull
    ensures Prop(page, name).None? ==> r == JNull
    ensures kind == "title" || kind == "rich_text" ==> r.JNull? || r.JStr?
    ensures kind == "multi_select" ==> r.JNull? || r.JArr?
    ensures kind == "title" || kind == "rich_text" ==> r == OrNone(TextProperty(page, name, kind))
    ensures kind == "select" ==> r == SelectProperty(page, name)
    ensures kind == "multi_select" ==>
      (MultiSelectProperty(page, name).None? ==> r == JNull) &&
      (MultiSelectProperty(page, name).Some? ==> r == JArr(MultiSelectProperty(page, name).value))
    ensures kind == "url" ==> r == UrlProperty(page, name)
  {
    if kind == "title" || kind == "rich_text" then OrNone(TextProperty(page, name, kind))
    else if kind == "select" then SelectProperty(page, name)
    else if kind == "multi_select" then
      (match MultiSelectProperty(page, name) case None => JNull case Some(names) => JArr(names))
    else if kind == "url" then UrlProperty(page, name)
    else JNull
  }

  /** A page whose only property is `prop`, stored under `name`. */
  function PageWith(name: string, prop: Dict<Json>): Json
  {
    JObj([("properties", JObj([(name, JObj(prop))]))])
  }

  /** One run of printable text extracts to that text. */
  lemma OneRunText(text: string)
    requires forall c :: c in text ==> Validation.Printable(c)
    ensures ExtractText(JArr([JObj([("plain_text", JStr(text))])])) == Some(text)
  {
    var items := [JObj([("plain_text", JStr(text))])];
    assert PlainText(items[0]) == Some(text);
    assert MapAll(items, PlainText).value == [text];
    assert Join([text], "") == text;
    FilterAll(text, (c: char) => Validation.Printable(c));
  }

  /** A text property of one rich-text run reads back as that run's text
    * when every character of it is printable. */
  lemma TextReadsBack(name: string, kind: string, text: string)
    requires kind == "title" || kind == "rich_text"
    requires forall c :: c in text ==> Validation.Printable(c)
    ensures PropertyValue(PageWith(name, [(kind, JArr([JObj([("plain_text", JStr(text))])]))]), name, kind) == JStr(text)
  {
    var prop := [(kind, JArr([JObj([("plain_text", JStr(text))])]))];
    var page := PageWith(name, prop);
    assert Prop(page, name) == Some(prop);
    assert prop[0].0 == kind;
    assert Get(prop, kind) == Some(JArr([JObj([("plain_text", JStr(text))])]));
    OneRunText(text);
    assert TextProperty(page, name, kind) == Some(text);
  }

  /** A selection reads back as its option's name. */
  lemma SelectReadsBack(name: string, option: Json)
    ensures PropertyValue(PageWith(name, [("select", JObj([("name", option)]))]), name, "select") == option
  {
    var page := PageWith(name, [("select", JObj([("name", option)]))]);
    assert Prop(page, name) == Some([("select", JObj([("name", option)]))]);
  }

  /** The options of a multi-selection read back as their names, in order. */
  lemma MultiSelectReadsBack(name: string, names: seq<Json>)
    ensures var options := seq(|names|, k requires 0 <= k < |names| => JObj([("name", names[k])]));
      PropertyValue(PageWith(name, [("multi_select", JArr(options))]), name, "multi_select") == JArr(names)
  {
    var options := seq(|names|, k requires 0 <= k < |names| => JObj([("name", names[k])]));
    var page := PageWith(name, [("multi_select", JArr(options))]);
    assert Prop(page, name) == Some([("multi_select", JArr(options))]);
    var r := MultiSelectProperty(page, name);
    assert r.Some?;
    assert r.value == names;
  }

  /** A URL property reads back as its value. */
  lemma UrlReadsBack(name: string, url: Json)
    ensures PropertyValue(PageWith(name, [("url", url)]), name, "url") == url
  {
    var page := PageWith(name, [("url", url)]);
    assert Prop(page, name) == Some([("url", url)]);
  }

  /** A parsed page; `None` in a text field or in `tags` is Python's `None`. */
  datatype Page = Page(
    id: Json, url: Json, titel: Option<string>, beschreibung: Option<string>, modul: Json, typ: Json,
    tags: Option<seq<Json>>, createdTime: Json, lastEditedTime: Json)

  /** `parse_page`: `None` where the page has no "id" or "url" (a KeyError). */
  function ParsePage(page: Json): (r: Option<Page>)
    ensures r.Some? <==> page.JObj? && HasKey(page.fields, "id") && HasKey(page.fields, "url")
    ensures r.Some? ==> OrNone(r.value.titel) == PropertyValue(page, "Titel", "title")
                        && OrNone(r.value.beschreibung) == PropertyValue(page, "Beschreibung", "rich_text")
                        && r.value.modul == PropertyValue(page, "Modul", "select")
                        && r.value.typ == PropertyValue(page, "Typ", "select")
  {
    if !page.JObj? then None
    else match (Get(page.fields, "id"), Get(page.fields, "url"))
      case (Some(id), Some(url)) =>
        Some(Page(id, url, TextProperty(page, "Titel", "title"), TextProperty(page, "Beschreibung", "rich_text"),
                  SelectProperty(page, "Modul"), SelectProperty(page, "Typ"), MultiSelectProperty(page, "Tags"),
                  FieldOr(page.fields, "created_time", JNull), FieldOr(page.fields, "last_edited_time", JNull)))
      case _ => None
  }

  /** A response's "results" parsed page by page; `None` where that raises. */
  function ResultsPages(response: Json): Option<seq<Page>>
  {
    if response.JObj? then
      match FieldOr(response.fields, "results", JNull)
      case JArr(pages) => MapAll(pages, ParsePage)
      case _ => None
    else None
  }

  // ---------------------------------------------------------------------------
  // Blocks

  /** The Markdown prefix of each block type whose text is a rich-text run. */
  function Prefix(kind: Json): Option<string>
  {
    if kind == JStr("paragraph") then Some("")
    else if kind == JStr("heading_1") then Some("# ")
    else if kind == JStr("heading_2") then Some("## ")
    else if kind == JStr("heading_3") then Some("### ")
    else if kind == JStr("bulleted_list_item") then Some("- ")
    else if kind == JStr("numbered_list_item") then Some("1. ")
    else if kind == JStr("quote") then Some("> ")
    else None
  }

  /** `block[key].get("rich_text", [])`'s text; `None` where that raises. */
  function BodyText(fields: Dict<Json>, key: string): Option<string>
  {
    match FieldOr(fields, key, JNull)
    case JObj(body) => ExtractText(FieldOr(body, "rich_text", JArr([])))
    case _ => None
  }

  /** A block's "type" (`None` when absent). */
  function Kind(fields: Dict<Json>): Json
  {
    FieldOr(fields, "type", JNull)
  }

  /** A rich-text block: its prefix, then its text. */
  function PrefixedText(fields: Dict<Json>, key: string, prefix: string): (r: Option<string>)
    ensures r.Some? ==> StartsWith(r.value, prefix)
  {
    match BodyText(fields, key)
    case None => None
    case Some(t) => Some(prefix + t)
  }

  /** A code block: a fenced block tagged with its language. */
  function CodeText(fields: Dict<Json>): (r: Option<string>)
    ensures r.Some? ==> StartsWith(r.value, "```") && EndsWith(r.value, "\n```")
  {
    match FieldOr(fields, "code", JNull)
    case JObj(body) =>
      (match ExtractText(FieldOr(body, "rich_text", JArr([])))
       case None => None
       case Some(code) =>
         var lang := PyStrOf(FieldOr(body, "language", JStr("")));
         var text := "```" + lang + "\n" + code + "\n```";
         assert text[|text| - 4..] == "\n```";
         Some(text))
    case _ => None
  }

  /** `_block_to_text`: `None` where Python raises. */
  function BlockToText(block: Json): (r: Option<string>)
    ensures !block.JObj? ==> r.None?
    ensures block.JObj? && Prefix(Kind(block.fields)).None? && Kind(block.fields) != JStr("code") ==> r == Some("")
    ensures block.JObj? && r.Some? && Prefix(Kind(block.fields)).Some? ==>
            StartsWith(r.value, Prefix(Kind(block.fields)).value)
    ensures block.JObj? && r.Some? && Kind(block.fields) == JStr("code") ==>
            StartsWith(r.value, "```") && EndsWith(r.value, "\n```")
  {
    if !block.JObj? then None
    else
      var kind := Kind(block.fields);
      match Prefix(kind)
      case Some(p) => PrefixedText(block.fields, kind.s, p)
      case None => if kind == JStr("code") then CodeText(block.fields) else Some("")
  }

  /** Every block type but a paragraph renders to non-empty text, which
    * `blocks_to_text` keeps; a block of any other type renders to nothing. */
  lemma BlockKept(block: Json)
    requires BlockToText(block).Some? && block.JObj?
    ensures var kind := Kind(block.fields);
      (kind == JStr("code") || (Prefix(kind).Some? && kind != JStr("paragraph"))) ==> BlockToText(block).value != ""
  {
    var kind := Kind(block.fields);
    if Prefix(kind).Some? && kind != JStr("paragraph") {
      PrefixNonEmpty(kind);
    }
  }

  /** Only a paragraph has the empty prefix. */
  lemma PrefixNonEmpty(kind: Json)
    requires Prefix(kind).Some? && kind != JStr("paragraph")
    ensures |Prefix(kind).value| >= 2
  {
  }

  predicate NonEmpty(s: string) { s != "" }

  /** `blocks_to_text`: the non-empty block texts, separated by blank lines;
    * `None` where a block raises. */
  function BlocksToText(blocks: seq<Json>): (r: Option<string>)
    ensures r.Some? <==> forall k :: 0 <= k < |blocks| ==> BlockToText(blocks[k]).Some?
  {
    match MapAll(blocks, BlockToText)
    case None => None
    case Some(texts) => Some(JoinKept(texts))
  }

  lemma {:induction false} JoinAppendAll(a: seq<string>, b: seq<string>, sep: string)
    requires a != [] && b != []
    ensures Join(a + b, sep) == Join(a, sep) + sep + Join(b, sep)
  {
    if |a| == 1 {
      assert (a + b)[1..] == b;
    } else {
      assert (a + b)[1..] == a[1..] + b;
      JoinAppendAll(a[1..], b, sep);
    }
  }

  /** The blank-line-separated join of the non-empty texts. */
  function JoinKept(texts: seq<string>): string
  {
    Join(Filter(texts, NonEmpty), "\n\n")
  }

  lemma JoinKeptAppend(ta: seq<string>, tb: seq<string>)
    ensures JoinKept(tb) == "" ==> JoinKept(ta + tb) == JoinKept(ta)
    ensures JoinKept(ta) == "" ==> JoinKept(ta + tb) == JoinKept(tb)
    ensures JoinKept(ta) != "" && JoinKept(tb) != "" ==> JoinKept(ta + tb) == JoinKept(ta) + "\n\n" + JoinKept(tb)
  {
    FilterAppend(ta, tb, NonEmpty);
    var fa, fb := Filter(ta, NonEmpty), Filter(tb, NonEmpty);
    assert forall k :: 0 <= k < |fa| ==> fa[k] in fa;
    assert forall k :: 0 <= k < |fb| ==> fb[k] in fb;
    JoinOfNonEmpty(fa);
    JoinOfNonEmpty(fb);
    if fa == [] {
      assert fa + fb == fb;
    } else if fb == [] {
      assert fa + fb == fa;
    } else {
      JoinAppendAll(fa, fb, "\n\n");
    }
  }

  /** The text of two runs of blocks is the text of each, separated by a
    * blank line, when both have any; a run that renders to nothing adds
    * nothing. */
  lemma BlocksAppend(a: seq<Json>, b: seq<Json>)
    requires BlocksToText(a).Some? && BlocksToText(b).Some?
    ensures BlocksToText(b).value == "" ==> BlocksToText(a + b) == BlocksToText(a)
    ensures BlocksToText(a).value == "" ==> BlocksToText(a + b) == BlocksToText(b)
    ensures BlocksToText(a).value != "" && BlocksToText(b).value != "" ==>
      BlocksToText(a + b) == Some(BlocksToText(a).value + "\n\n" + BlocksToText(b).value)
  {
    MapAllAppend(a, b, BlockToText);
    var ta, tb := MapAll(a, BlockToText).value, MapAll(b, BlockToText).value;
    assert BlocksToText(a) == Some(JoinKept(ta));
    assert BlocksToText(b) == Some(JoinKept(tb));
    assert BlocksToText(a + b) == Some(JoinKept(ta + tb));
    JoinKeptAppend(ta, tb);
  }

  /** Joining non-empty texts is empty only when there are none. */
  lemma JoinOfNonEmpty(parts: seq<string>)
    requires forall k :: 0 <= k < |parts| ==> parts[k] != ""
    ensures Join(parts, "\n\n") == "" <==> parts == []
  {
    if |parts| >= 2 {
      assert |Join(parts, "\n\n")| >= |parts[0]|;
    }
  }

  // ---------------------------------------------------------------------------
  // Retry with exponential backoff

  /** What one call of the wrapped function did. */
  datatype Outcome<T> = Returned(value: T) | ApiFailure(message: string) | Failure(message: string)

  const MaxRetries := 3
  const RetryDelay := 1
  const BackoffFactor := 2

  function Pow(b: nat, e: nat): (r: nat)
    ensures b >= 1 ==> r >= 1
  {
    if e == 0 then 1 else b * Pow(b, e - 1)
  }

  /** The wait after the `k`-th API failure (counting from zero). */
  function Backoff(k: nat): nat
  {
    RetryDelay * Pow(BackoffFactor, k)
  }

  /** The first `n` waits: 1, 2, 4, … seconds. */
  function Backoffs(n: nat): (r: seq<nat>)
    ensures |r| == n && forall j :: 0 <= j < n ==> r[j] == Backoff(j)
  {
    if n == 0 then [] else Backoffs(n - 1) + [Backoff(n - 1)]
  }

  function ExhaustedError(maxRetries: int, message: string): string
  {
    "Failed after " + IntToStr(maxRetries) + " retries: " + message
  }

  function UnexpectedError(message: string): string
  {
    "Unexpected error: " + message
  }

  /** `retry_on_failure(max_retries)` around a function whose `k`-th call
    * does `calls[k]`: it returns the first value, gives up on the first
    * error that is not an API error, and after `max_retries` API errors
    * raises; without any allowed call it returns `None`. Between calls it
    * waits 1, 2, 4, … seconds. */
  method RetryOnFailure<T>(maxRetries: int, calls: seq<Outcome<T>>)
    returns (r: Result<Option<T>, string>, made: nat, waits: seq<nat>)
    requires maxRetries <= |calls|
    ensures maxRetries <= 0 ==> r == Ok(None) && made == 0 && waits == []
    ensures maxRetries > 0 ==> 1 <= made <= maxRetries
    ensures forall j :: 0 <= j < made - 1 ==> calls[j].ApiFailure?
    ensures waits == Backoffs(if made == 0 then 0 else made - 1)
    ensures made > 0 && calls[made - 1].Returned? ==> r == Ok(Some(calls[made - 1].value))
    ensures made > 0 && calls[made - 1].Failure? ==> r == Err(UnexpectedError(calls[made - 1].message))
    ensures made > 0 && calls[made - 1].ApiFailure? ==>
      made == maxRetries && r == Err(ExhaustedError(maxRetries, calls[made - 1].message))
  {
    var retries := 0;
    waits := [];
    while retries < maxRetries
      invariant 0 <= retries <= |calls| && (maxRetries > 0 ==> retries < maxRetries)
      invariant forall j :: 0 <= j < retries ==> calls[j].ApiFailure?
      invariant waits == Backoffs(retries)
      decreases maxRetries - retries
    {
      match calls[retries]
      case Returned(v) =>
        return Ok(Some(v)), retries + 1, waits;
      case Failure(e) =>
        return Err(UnexpectedError(e)), retries + 1, waits;
      case ApiFailure(e) =>
        retries := retries + 1;
        if retries >= maxRetries {
          return Err(ExhaustedError(maxRetries, e)), retries, waits;
        }
        waits := waits + [Backoff(retries - 1)];
    }
    return Ok(None), 0, [];
  }

  /** The first `n` waits add up to `2^n - 1` seconds. */
  lemma {:induction false} TotalWait(n: nat)
    ensures SumNat(Backoffs(n)) == Pow(2, n) - 1
  {
    if n > 0 {
      TotalWait(n - 1);
      SumNatSnoc(Backoffs(n - 1), Backoff(n - 1));
    }
  }

  function SumNat(s: seq<nat>): nat
  {
    if s == [] then 0 else s[0] + SumNat(s[1..])
  }

  lemma {:induction false} SumNatSnoc(s: seq<nat>, x: nat)
    ensures SumNat(s + [x]) == SumNat(s) + x
  {
    if s != [] {
      assert (s + [x])[1..] == s[1..] + [x];
      SumNatSnoc(s[1..], x);
    }
  }

  // ---------------------------------------------------------------------------
  // The API-backed operations, each one attempt of the retried body

  /** What one API request did: answered, raised `APIResponseError`, or
    * raised anything else. */
  datatype ApiCall = Response(body: Json) | ApiRaised(message: string) | OtherRaised(message: string)

  /** One attempt of a body that sends a request and then computes from the
    * answer; `compute` gives `None` where that raises. */
  function Attempt<T>(call: ApiCall, compute: Json -> Option<T>): Outcome<T>
  {
    match call
    case ApiRaised(e) => ApiFailure(e)
    case OtherRaised(e) => Failure(e)
    case Response(body) =>
      match compute(body)
      case None => Failure(AgentDispatch.Raised)
      case Some(v) => Returned(v)
  }

  /** The rendered blocks of a block-children answer. */
  function ResponseText(response: Json): Option<string>
  {
    if response.JObj? then
      match FieldOr(response.fields, "results", JNull)
      case JArr(blocks) => BlocksToText(blocks)
      case _ => None
    else None
  }

  /** One attempt of `get_page_content`: the id is validated before the
    * request, so a bad id fails every attempt the same way. */
  function PageContentAttempt(pageId: string, call: ApiCall): (o: Outcome<string>)
    ensures Validation.ValidatePageId(pageId).Err? ==> o == Failure(Validation.ValidatePageId(pageId).error)
  {
    match Validation.ValidatePageId(pageId)
    case Err(e) => Failure(e)
    case Ok(_) => Attempt(call, ResponseText)
  }

  /** `get_page_content`: the `ValueError` of a malformed id is caught by the
    * retry wrapper and raised again as an unexpected error, without a retry. */
  method GetPageContent(pageId: string, calls: seq<ApiCall>)
    returns (r: Result<Option<string>, string>, made: nat, waits: seq<nat>)
    requires MaxRetries <= |calls|
    ensures Validation.ValidatePageId(pageId).Err? ==>
      r == Err(UnexpectedError(Validation.ValidatePageId(pageId).error)) && made == 1 && waits == []
    ensures Validation.ValidatePageId(pageId).Ok? && calls[0].Response? && ResponseText(calls[0].body).Some? ==>
      r == Ok(Some(ResponseText(calls[0].body).value)) && made == 1
  {
    var attempts := seq(|calls|, k requires 0 <= k < |calls| => PageContentAttempt(pageId, calls[k]));
    assert attempts[0] == PageContentAttempt(pageId, calls[0]);
    r, made, waits := RetryOnFailure(MaxRetries, attempts);
  }

  /** One attempt of `get_page_by_id`. */
  function PageByIdAttempt(pageId: string, call: ApiCall): Outcome<Page>
  {
    match Validation.ValidatePageId(pageId)
    case Err(e) => Failure(e)
    case Ok(_) => Attempt(call, ParsePage)
  }

  /** `get_page_by_id`: the page the API answers with, parsed. */
  method GetPageById(pageId: string, calls: seq<ApiCall>)
    returns (r: Result<Option<Page>, string>, made: nat, waits: seq<nat>)
    requires MaxRetries <= |calls|
    ensures Validation.ValidatePageId(pageId).Err? ==>
      r == Err(UnexpectedError(Validation.ValidatePageId(pageId).error)) && made == 1 && waits == []
    ensures Validation.ValidatePageId(pageId).Ok? && calls[0].Response? && ParsePage(calls[0].body).Some? ==>
      r == Ok(ParsePage(calls[0].body)) && made == 1
  {
    var attempts := seq(|calls|, k requires 0 <= k < |calls| => PageByIdAttempt(pageId, calls[k]));
    assert attempts[0] == PageByIdAttempt(pageId, calls[0]);
    r, made, waits := RetryOnFailure(MaxRetries, attempts);
  }

  /** `get_all_modules`, `get_module_by_name`, `get_modules_by_tag` and
    * `get_modules_by_type`: the database query's pages, parsed. Which pages
    * the query selects is decided by the Notion API. */
  method QueryDatabase(calls: seq<ApiCall>)
    returns (r: Result<Option<seq<Page>>, string>, made: nat, waits: seq<nat>)
    requires MaxRetries <= |calls|
    ensures calls[0].Response? && ResultsPages(calls[0].body).Some? ==>
      r == Ok(ResultsPages(calls[0].body)) && made == 1 && waits == []
    ensures (forall k :: 0 <= k < MaxRetries ==> calls[k].ApiRaised?) ==>
      r == Err(ExhaustedError(MaxRetries, calls[MaxRetries - 1].message)) && made == MaxRetries
      && waits == Backoffs(2)
  {
    var attempts := seq(|calls|, k requires 0 <= k < |calls| => Attempt(calls[k], ResultsPages));
    assert forall k :: 0 <= k < |calls| ==> attempts[k] == Attempt(calls[k], ResultsPages);
    r, made, waits := RetryOnFailure(MaxRetries, attempts);
  }

  // ---------------------------------------------------------------------------
  // Search

  /** The tags of a parsed page joined by `" ".join`: every name must be a
    * string, and Python's `None` raises. */
  function TagNames(tags: Option<seq<Json>>): (r: Option<seq<string>>)
    ensures tags.None? ==> r.None?
    ensures r.Some? <==> tags.Some? && forall j :: j in tags.value ==> j.JStr?
    ensures r.Some? ==> |r.value| == |tags.value| && forall k :: 0 <= k < |r.value| ==> tags.value[k] == JStr(r.value[k])
  {
    match tags
    case None => None
    case Some(items) => MapAll(items, (j: Json) => if j.JStr? then Some(j.s) else None)
  }

  /** What `search_codex` reads from a parsed page: an absent title or
    * description reads as empty, tags must be readable. */
  function PageView(p: Page): (r: Option<Catalog.View>)
    ensures r.Some? <==> TagNames(p.tags).Some?
  {
    match TagNames(p.tags)
    case None => None
    case Some(tags) => Some(Catalog.View(p.titel.GetOr(""), p.beschreibung.GetOr(""), tags))
  }

  /** `search_codex` over the loaded pages. */
  method SearchCodex(pages: seq<Page>, query: string, maxResults: int) returns (r: Result<seq<Page>, string>)
    ensures r == Catalog.Search(pages, PageView, query, maxResults)
  {
    r := Catalog.SearchCodex(pages, PageView, query, maxResults);
  }

  /** Where every page's tags are names, the search keeps the first
    * `max(max_results, 1)` matching pages; a page with unreadable tags before
    * enough matches makes the search raise. */
  lemma SearchResult(pages: seq<Page>, query: string, maxResults: int)
    requires Validation.ValidateQuery(query, Catalog.MaxQueryLength).Ok?
    ensures (forall k :: 0 <= k < |pages| ==> TagNames(pages[k].tags).Some?) ==>
      var q := Lower(Validation.ValidateQuery(query, Catalog.MaxQueryLength).value);
      Catalog.Search(pages, PageView, query, maxResults) == Ok(Take(Filter(pages, Catalog.HitOf(PageView, q)), Catalog.Limit(maxResults)))
    ensures pages != [] && TagNames(pages[0].tags).None? ==> Catalog.Search(pages, PageView, query, maxResults) == Err(AgentDispatch.Raised)
  {
    if forall k :: 0 <= k < |pages| ==> TagNames(pages[k].tags).Some? {
      Catalog.SearchIsPrefix(pages, PageView, query, maxResults);
    }
  }
}
