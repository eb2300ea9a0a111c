// The codex read from a local JSON file: its raw modules, their parsed
// entries, lookups by id, name, tag and type, and the search. Reading the
// file and its cache are outside; the model starts from the "modules" list.
module LocalCodex {
  import opened Wrappers
  import opened Seqs
  import opened PyStr
  import Validation
  import Catalog

  /** A module as stored in the file; `None` where the key is absent. */
  datatype RawModule = RawModule(
    id: Option<string>, url: Option<string>, titel: Option<string>, beschreibung: Option<string>,
    modul: Option<string>, typ: Option<string>, tags: Option<seq<string>>,
    createdTime: Option<string>, lastEditedTime: Option<string>, content: Option<string>)

  /** A module in the standard shape `parse_module` gives every client. */
  datatype Entry = Entry(
    id: string, url: string, titel: string, beschreibung: string, modul: string, typ: string,
    tags: seq<string>, createdTime: string, lastEditedTime: string)

  const EmptyId := "Page ID cannot be empty"
  const NotFoundPrefix := "Module not found: "

  /** `parse_module`: absent keys become empty, title and description are
    * sanitised. */
  function ParseModule(m: RawModule): (e: Entry)
    ensures e.id == m.id.GetOr("") && e.modul == m.modul.GetOr("") && e.typ == m.typ.GetOr("")
    ensures e.tags == m.tags.GetOr([])
    ensures forall c :: c in e.titel <==> c in m.titel.GetOr("") && Validation.Printable(c)
    ensures forall c :: c in e.beschreibung <==> c in m.beschreibung.GetOr("") && Validation.Printable(c)
  {
    Entry(m.id.GetOr(""), m.url.GetOr(""), Validation.Sanitize(m.titel.GetOr("")),
          Validation.Sanitize(m.beschreibung.GetOr("")), m.modul.GetOr(""), m.typ.GetOr(""),
          m.tags.GetOr([]), m.createdTime.GetOr(""), m.lastEditedTime.GetOr(""))
  }

  /** An entry written back as a stored module with every key present. */
  function Stored(e: Entry): RawModule
  {
    RawModule(Some(e.id), Some(e.url), Some(e.titel), Some(e.beschreibung), Some(e.modul), Some(e.typ),
              Some(e.tags), Some(e.createdTime), Some(e.lastEditedTime), None)
  }

  /** Parsing an entry already parsed changes nothing. */
  lemma ParseIdempotent(m: RawModule)
    ensures ParseModule(Stored(ParseModule(m))) == ParseModule(m)
  {
    Validation.SanitizeIdempotent(m.titel.GetOr(""));
    Validation.SanitizeIdempotent(m.beschreibung.GetOr(""));
  }

  /** `get_all_modules`: every stored module parsed, in file order. */
  function AllModules(raw: seq<RawModule>): (r: seq<Entry>)
    ensures |r| == |raw| && forall k :: 0 <= k < |raw| ==> r[k] == ParseModule(raw[k])
  {
    seq(|raw|, k requires 0 <= k < |raw| => ParseModule(raw[k]))
  }

  /** `get_module_by_name`: the entries whose module is `name`, in order. */
  function ModuleByName(raw: seq<RawModule>, name: string): (r: seq<Entry>)
    ensures forall e :: e in r <==> e in AllModules(raw) && e.modul == name
    ensures IsSubsequence(r, AllModules(raw))
  {
    FilterSubsequence(AllModules(raw), (e: Entry) => e.modul == name);
    Filter(AllModules(raw), (e: Entry) => e.modul == name)
  }

  /** `get_modules_by_tag`: the entries carrying `tag`, in order. */
  function ModulesByTag(raw: seq<RawModule>, tag: string): (r: seq<Entry>)
    ensures forall e :: e in r <==> e in AllModules(raw) && tag in e.tags
    ensures IsSubsequence(r, AllModules(raw))
  {
    FilterSubsequence(AllModules(raw), (e: Entry) => tag in e.tags);
    Filter(AllModules(raw), (e: Entry) => tag in e.tags)
  }

  /** `get_modules_by_type`: the entries of type `typ`, in order. */
  function ModulesByType(raw: seq<RawModule>, typ: string): (r: seq<Entry>)
    ensures forall e :: e in r <==> e in AllModules(raw) && e.typ == typ
    ensures IsSubsequence(r, AllModules(raw))
  {
    FilterSubsequence(AllModules(raw), (e: Entry) => e.typ == typ);
    Filter(AllModules(raw), (e: Entry) => e.typ == typ)
  }

  /** The position of the first stored module whose id is `id`. */
  function FirstWithId(raw: seq<RawModule>, id: string): (r: Option<nat>)
    ensures r.Some? ==> r.value < |raw| && raw[r.value].id == Some(id)
    ensures r.Some? ==> forall j :: 0 <= j < r.value ==> raw[j].id != Some(id)
    ensures r.None? ==> forall j :: 0 <= j < |raw| ==> raw[j].id != Some(id)
  {
    if raw == [] then None
    else if raw[0].id == Some(id) then Some(0)
    else match FirstWithId(raw[1..], id)
      case None => None
      case Some(k) => Some(k + 1)
  }

  /** `get_page_content`: the sanitised content of the first module with the
    * id; an empty id is a `ValueError`, a missing one a
    * `LocalCodexClientError`. */
  function PageContent(raw: seq<RawModule>, pageId: string): (r: Result<string, string>)
    ensures pageId == "" ==> r == Err(EmptyId)
    ensures pageId != "" && FirstWithId(raw, pageId).None? ==> r == Err(NotFoundPrefix + pageId)
    ensures r.Ok? ==> FirstWithId(raw, pageId).Some?
                      && r.value == Validation.Sanitize(raw[FirstWithId(raw, pageId).value].content.GetOr(""))
  {
    if pageId == "" then Err(EmptyId)
    else match FirstWithId(raw, pageId)
      case None => Err(NotFoundPrefix + pageId)
      case Some(k) => Ok(Validation.Sanitize(raw[k].content.GetOr("")))
  }

  /** The first parsed entry with the id. */
  function FirstEntry(entries: seq<Entry>, id: string): (r: Option<Entry>)
    ensures r.Some? ==> r.value in entries && r.value.id == id
    ensures r.None? ==> forall e :: e in entries ==> e.id != id
  {
    if entries == [] then None
    else if entries[0].id == id then Some(entries[0])
    else FirstEntry(entries[1..], id)
  }

  /** `get_page_by_id`: the first parsed entry with the id. */
  function PageById(raw: seq<RawModule>, pageId: string): (r: Result<Entry, string>)
    ensures pageId == "" ==> r == Err(EmptyId)
    ensures r.Ok? ==> r.value.id == pageId && r.value in AllModules(raw)
  {
    if pageId == "" then Err(EmptyId)
    else match FirstEntry(AllModules(raw), pageId)
      case None => Err(NotFoundPrefix + pageId)
      case Some(e) => Ok(e)
  }

  /** The two lookups by id agree: both find the same module, one returning
    * its parsed entry and the other its content. */
  lemma PageByIdAgrees(raw: seq<RawModule>, pageId: string)
    ensures PageById(raw, pageId).Ok? <==> PageContent(raw, pageId).Ok?
    ensures PageById(raw, pageId).Ok? ==> PageById(raw, pageId).value == ParseModule(raw[FirstWithId(raw, pageId).value])
    ensures PageById(raw, pageId).Err? ==> PageById(raw, pageId).error == PageContent(raw, pageId).error
  {
    if pageId != "" {
      FirstEntryParsed(raw, pageId);
    }
  }

  lemma FirstEntryParsed(raw: seq<RawModule>, id: string)
    requires id != ""
    ensures FirstEntry(AllModules(raw), id).Some? <==> FirstWithId(raw, id).Some?
    ensures FirstWithId(raw, id).Some? ==> FirstEntry(AllModules(raw), id) == Some(ParseModule(raw[FirstWithId(raw, id).value]))
  {
    FirstEntryAt(AllModules(raw), raw, id);
  }

  /** Entries whose ids are the stored ids (absent ones empty): the first
    * entry with a non-empty id sits where the first stored module with it does. */
  lemma {:induction false} FirstEntryAt(es: seq<Entry>, raw: seq<RawModule>, id: string)
    requires id != "" && |es| == |raw|
    requires forall k :: 0 <= k < |es| ==> es[k].id == raw[k].id.GetOr("")
    ensures FirstEntry(es, id).Some? <==> FirstWithId(raw, id).Some?
    ensures FirstWithId(raw, id).Some? ==> FirstEntry(es, id) == Some(es[FirstWithId(raw, id).value])
  {
    if raw != [] {
      assert es[0].id == raw[0].id.GetOr("");
      if raw[0].id != Some(id) {
        forall k | 0 <= k < |es[1..]| ensures es[1..][k].id == raw[1..][k].id.GetOr("") {
          assert es[1..][k] == es[k + 1] && raw[1..][k] == raw[k + 1];
        }
        FirstEntryAt(es[1..], raw[1..], id);
      }
    }
  }

  /** What `search_codex` reads from a parsed entry; always readable. */
  function EntryView(e: Entry): Option<Catalog.View>
  {
    Some(Catalog.View(e.titel, e.beschreibung, e.tags))
  }

  /** `search_codex` on the stored modules. */
  method SearchCodex(raw: seq<RawModule>, query: string, maxResults: int) returns (r: Result<seq<Entry>, string>)
    ensures r == Catalog.Search(AllModules(raw), EntryView, query, maxResults)
  {
    r := Catalog.SearchCodex(AllModules(raw), EntryView, query, maxResults);
  }

  /** The local search fails only on the query, and otherwise keeps the first
    * `max(max_results, 1)` matching entries in file order. */
  lemma SearchResult(raw: seq<RawModule>, query: string, maxResults: int)
    ensures var v := Validation.ValidateQuery(query, Catalog.MaxQueryLength);
      match v
      case Err(e) => Catalog.Search(AllModules(raw), EntryView, query, maxResults) == Err(e)
      case Ok(q) => Catalog.Search(AllModules(raw), EntryView, query, maxResults)
                    == Ok(Take(Filter(AllModules(raw), Catalog.HitOf(EntryView, Lower(q))), Catalog.Limit(maxResults)))
  {
    if Validation.ValidateQuery(query, Catalog.MaxQueryLength).Ok? {
      Catalog.SearchIsPrefix(AllModules(raw), EntryView, query, maxResults);
    }
  }
}
