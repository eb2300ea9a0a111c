// The codex kept in a YAML file: modules, each with its commands. Lookups
// by id or name, a command's Markdown page, the search over modules,
// commands and examples, the tag and type filters and the statistics.
// Reading the file and its cache are outside; the model starts from the
// loaded module list.
module YamlCodex {
  import opened Wrappers
  import opened Seqs
  import opened PyStr
  import Sorting
  import AgentDispatch

  datatype Command = Command(id: string, syntax: string, description: string, examples: seq<string>)

  /** A module; `kind` is its optional "type". */
  datatype Module = Module(
    id: string, name: string, description: string, kind: Option<string>, tags: seq<string>, commands: seq<Command>)

  // ---------------------------------------------------------------------------
  // get_module_by_name

  /** The position of the first module whose id is `id`. */
  function FirstById(modules: seq<Module>, id: string): (r: Option<nat>)
    ensures r.Some? ==> r.value < |modules| && modules[r.value].id == id
    ensures r.Some? ==> forall j :: 0 <= j < r.value ==> modules[j].id != id
    ensures r.None? ==> forall m :: m in modules ==> m.id != id
  {
    if modules == [] then None
    else if modules[0].id == id then Some(0)
    else match FirstById(modules[1..], id)
      case None => None
      case Some(k) => Some(k + 1)
  }

  /** The position of the first module whose lower-cased name contains `q`. */
  function FirstByName(modules: seq<Module>, q: string): (r: Option<nat>)
    ensures r.Some? ==> r.value < |modules| && Contains(Lower(modules[r.value].name), q)
    ensures r.Some? ==> forall j :: 0 <= j < r.value ==> !Contains(Lower(modules[j].name), q)
    ensures r.None? ==> forall m :: m in modules ==> !Contains(Lower(m.name), q)
  {
    if modules == [] then None
    else if Contains(Lower(modules[0].name), q) then Some(0)
    else match FirstByName(modules[1..], q)
      case None => None
      case Some(k) => Some(k + 1)
  }

  /** `get_module_by_name`: an exact id match on the upper-cased name wins
    * over any name match; `None` when neither matches. */
  function ModuleByName(modules: seq<Module>, name: string): (r: Option<Module>)
    ensures r.Some? ==> r.value in modules && (r.value.id == Upper(name) || Contains(Lower(r.value.name), Lower(name)))
    ensures r.None? <==> forall m :: m in modules ==> m.id != Upper(name) && !Contains(Lower(m.name), Lower(name))
    ensures (exists m :: m in modules && m.id == Upper(name)) ==> r.Some? && r.value.id == Upper(name)
  {
    match FirstById(modules, Upper(name))
    case Some(k) => Some(modules[k])
    case None =>
      match FirstByName(modules, Lower(name))
      case Some(k) => Some(modules[k])
      case None => None
  }

  // ---------------------------------------------------------------------------
  // get_page_content

  function Bullet(example: string): string
  {
    "- `" + example + "`\n"
  }

  /** The example bullets, one line each. */
  function Bullets(examples: seq<string>): (r: string)
    ensures examples == [] <==> r == ""
  {
    if examples == [] then "" else Bullet(examples[0]) + Bullets(examples[1..])
  }

  function Header(cmd: Command): string
  {
    "# " + cmd.id + "\n\n" + "**Syntax:** `" + cmd.syntax + "`\n\n" + "**Beschreibung:** " + cmd.description + "\n\n"
  }

  /** A command's Markdown page: title, syntax, description and, when there
    * are examples, a bullet list of them. */
  function Render(cmd: Command): (r: string)
    ensures StartsWith(r, "# " + cmd.id + "\n\n")
    ensures cmd.examples == [] ==> EndsWith(r, "**Beschreibung:** " + cmd.description + "\n\n")
    ensures cmd.examples != [] ==> |Header(cmd)| < |r| && StartsWith(r[|Header(cmd)|..], "**Beispiele:**\n")
  {
    var h := Header(cmd);
    var r := h + (if cmd.examples != [] then "**Beispiele:**\n" + Bullets(cmd.examples) else "");
    assert r[..|"# " + cmd.id + "\n\n"|] == "# " + cmd.id + "\n\n";
    assert cmd.examples == [] ==> r == h;
    assert r[|h|..] == (if cmd.examples != [] then "**Beispiele:**\n" + Bullets(cmd.examples) else "");
    r
  }

  /** `sub in b` stays true with text put in front. */
  lemma {:induction false} ContainsAfter(a: string, b: string, sub: string)
    requires Contains(b, sub)
    ensures Contains(a + b, sub)
    decreases |a|
  {
    if a == [] {
      assert a + b == b;
    } else {
      assert (a + b)[1..] == a[1..] + b;
      ContainsAfter(a[1..], b, sub);
    }
  }

  lemma {:induction false} BulletsContain(examples: seq<string>, k: nat)
    requires k < |examples|
    ensures Contains(Bullets(examples), Bullet(examples[k]))
  {
    if k == 0 {
      ContainsAt(Bullets(examples), Bullet(examples[0]), 0);
    } else {
      BulletsContain(examples[1..], k - 1);
      ContainsAfter(Bullet(examples[0]), Bullets(examples[1..]), Bullet(examples[k]));
    }
  }

  /** Every example of the command appears on the page as a bullet. */
  lemma RenderListsExamples(cmd: Command, k: nat)
    requires k < |cmd.examples|
    ensures Contains(Render(cmd), Bullet(cmd.examples[k]))
  {
    BulletsContain(cmd.examples, k);
    ContainsAfter(Header(cmd) + "**Beispiele:**\n", Bullets(cmd.examples), Bullet(cmd.examples[k]));
    AppendAssoc(Header(cmd), "**Beispiele:**\n", Bullets(cmd.examples));
  }

  /** A command is the one asked for by its full id or by its last segment. */
  predicate IsCommand(cmd: Command, commandId: string, cmdName: string)
  {
    cmd.id == commandId || LastSegment(cmd.id, '.') == cmdName
  }

  /** The first command of the module that is the one asked for. */
  function FirstCommand(commands: seq<Command>, commandId: string, cmdName: string): (r: Option<Command>)
    ensures r.Some? ==> r.value in commands && IsCommand(r.value, commandId, cmdName)
    ensures r.None? ==> forall c :: c in commands ==> !IsCommand(c, commandId, cmdName)
    ensures r.Some? ==> exists i :: 0 <= i < |commands| && commands[i] == r.value &&
                                    forall j :: 0 <= j < i ==> !IsCommand(commands[j], commandId, cmdName)
  {
    if commands == [] then None
    else if IsCommand(commands[0], commandId, cmdName) then Some(commands[0])
    else
      var r := FirstCommand(commands[1..], commandId, cmdName);
      if r.Some? then FirstAfterHead(commands, commandId, cmdName, r.value); r else r
  }

  /** A first match in the tail, after a head that does not match, is a
    * first match of the whole list. */
  lemma FirstAfterHead(commands: seq<Command>, commandId: string, cmdName: string, c: Command)
    requires commands != [] && !IsCommand(commands[0], commandId, cmdName)
    requires exists i :: 0 <= i < |commands| - 1 && commands[1..][i] == c &&
                         forall j :: 0 <= j < i ==> !IsCommand(commands[1..][j], commandId, cmdName)
    ensures exists i :: 0 <= i < |commands| && commands[i] == c &&
                        forall j :: 0 <= j < i ==> !IsCommand(commands[j], commandId, cmdName)
  {
    var i :| 0 <= i < |commands| - 1 && commands[1..][i] == c &&
             forall j :: 0 <= j < i ==> !IsCommand(commands[1..][j], commandId, cmdName);
    assert commands[i + 1] == c;
    forall j | 0 <= j < i + 1
      ensures !IsCommand(commands[j], commandId, cmdName)
    {
      if j > 0 { assert commands[j] == commands[1..][j - 1]; }
    }
  }

  const PageContentFailed := "Failed to get page content: "

  /** `get_page_content` for "MODULE.COMMAND": the module is looked up by the
    * text before the first ".", the command by its full id or by the text
    * after it; every error is raised again wrapped. */
  function PageContent(modules: seq<Module>, commandId: string): (r: Result<string, string>)
    ensures '.' !in commandId ==> r == Err(PageContentFailed + "Invalid command ID format: " + commandId)
    ensures r.Ok? ==> SplitFirst(commandId, '.').Some?
    ensures r.Ok? ==> exists c :: c in CommandsOf(modules) && IsCommand(c, commandId, SplitFirst(commandId, '.').value.1)
                                 && r.value == Render(c)
    ensures SplitFirst(commandId, '.').Some? ==>
      var moduleId, cmdName := SplitFirst(commandId, '.').value.0, SplitFirst(commandId, '.').value.1;
      var m := ModuleByName(modules, moduleId);
      (m.None? ==> r == Err(PageContentFailed + "Module not found: " + moduleId)) &&
      (m.Some? && FirstCommand(m.value.commands, commandId, cmdName).None? ==>
         r == Err(PageContentFailed + "Command not found: " + commandId)) &&
      (r.Ok? <==> m.Some? && FirstCommand(m.value.commands, commandId, cmdName).Some?) &&
      (r.Ok? ==> r.value == Render(FirstCommand(m.value.commands, commandId, cmdName).value))
  {
    match SplitFirst(commandId, '.')
    case None => Err(PageContentFailed + "Invalid command ID format: " + commandId)
    case Some((moduleId, cmdName)) =>
      match ModuleByName(modules, moduleId)
      case None => Err(PageContentFailed + "Module not found: " + moduleId)
      case Some(m) =>
        match FirstCommand(m.commands, commandId, cmdName)
        case None => Err(PageContentFailed + "Command not found: " + commandId)
        case Some(c) =>
          CommandOfModule(modules, m, c);
          Ok(Render(c))
  }

  /** Every command of every module. */
  function CommandsOf(modules: seq<Module>): seq<Command>
  {
    if modules == [] then [] else modules[0].commands + CommandsOf(modules[1..])
  }

  lemma {:induction false} CommandOfModule(modules: seq<Module>, m: Module, c: Command)
    requires m in modules && c in m.commands
    ensures c in CommandsOf(modules)
  {
    if modules[0] != m {
      CommandOfModule(modules[1..], m, c);
    }
  }

  // ---------------------------------------------------------------------------
  // search_codex

  /** One search result: a matching module, or a matching command (found by
    * its own fields, or only through one of its examples). */
  datatype Hit =
    | ModuleHit(id: string, name: string, description: string)
    | CommandHit(id: string, syntax: string, description: string, inModule: string, viaExample: bool)

  /** `[r["id"] for r in results if r.get("type") == "command"]` */
  function CommandIds(results: seq<Hit>): (r: seq<string>)
    ensures forall h :: h in results && h.CommandHit? ==> h.id in r
  {
    if results == [] then [] else (if results[0].CommandHit? then [results[0].id] else []) + CommandIds(results[1..])
  }

  lemma {:induction false} CommandIdsAppend(a: seq<Hit>, b: seq<Hit>)
    ensures CommandIds(a + b) == CommandIds(a) + CommandIds(b)
  {
    if a == [] {
      assert a + b == b;
    } else {
      assert (a + b)[1..] == a[1..] + b;
      CommandIdsAppend(a[1..], b);
    }
  }

  predicate ModuleMatches(m: Module, q: string)
  {
    Contains(Lower(m.name), q) || Contains(Lower(m.description), q)
  }

  predicate CommandMatches(c: Command, q: string)
  {
    Contains(Lower(c.id), q) || Contains(Lower(c.description), q) || Contains(Lower(c.syntax), q)
  }

  function CommandHitOf(c: Command, moduleId: string, viaExample: bool): Hit
  {
    CommandHit(c.id, c.syntax, c.description, moduleId, viaExample)
  }

  /** One example: a hit only for a command not yet among the results. */
  function ExampleStep(acc: seq<Hit>, c: Command, moduleId: string, q: string, example: string): seq<Hit>
  {
    if Contains(Lower(example), q) && c.id !in CommandIds(acc) then acc + [CommandHitOf(c, moduleId, true)] else acc
  }

  function ExamplesFrom(acc: seq<Hit>, c: Command, moduleId: string, q: string, examples: seq<string>): seq<Hit>
    decreases examples
  {
    if examples == [] then acc
    else ExamplesFrom(ExampleStep(acc, c, moduleId, q, examples[0]), c, moduleId, q, examples[1..])
  }

  /** One command: its own match, then its examples. */
  function CommandStep(acc: seq<Hit>, c: Command, moduleId: string, q: string): seq<Hit>
  {
    ExamplesFrom(acc + (if CommandMatches(c, q) then [CommandHitOf(c, moduleId, false)] else []), c, moduleId, q, c.examples)
  }

  function CommandsFrom(acc: seq<Hit>, commands: seq<Command>, moduleId: string, q: string): seq<Hit>
    decreases commands
  {
    if commands == [] then acc
    else CommandsFrom(CommandStep(acc, commands[0], moduleId, q), commands[1..], moduleId, q)
  }

  function ModuleHitOf(m: Module): Hit
  {
    ModuleHit(m.id, m.name, m.description)
  }

  /** One module: its own match, then its commands. */
  function ModuleStep(acc: seq<Hit>, m: Module, q: string): seq<Hit>
  {
    CommandsFrom(acc + (if ModuleMatches(m, q) then [ModuleHitOf(m)] else []), m.commands, m.id, q)
  }

  function ModulesFrom(acc: seq<Hit>, modules: seq<Module>, q: string): seq<Hit>
    decreases modules
  {
    if modules == [] then acc else ModulesFrom(ModuleStep(acc, modules[0], q), modules[1..], q)
  }

  /** `search_codex`: every hit in traversal order, then `[:max_results]`. */
  function Search(modules: seq<Module>, query: string, maxResults: int): seq<Hit>
  {
    Take(ModulesFrom([], modules, Lower(query)), maxResults)
  }

  method ScanExamples(acc: seq<Hit>, c: Command, moduleId: string, q: string) returns (results: seq<Hit>)
    ensures results == ExamplesFrom(acc, c, moduleId, q, c.examples)
  {
    results := acc;
    var i := 0;
    while i < |c.examples|
      invariant 0 <= i <= |c.examples|
      invariant ExamplesFrom(results, c, moduleId, q, c.examples[i..]) == ExamplesFrom(acc, c, moduleId, q, c.examples)
    {
      assert c.examples[i..][1..] == c.examples[i + 1..];
      if Contains(Lower(c.examples[i]), q) && c.id !in CommandIds(results) {
        results := results + [CommandHitOf(c, moduleId, true)];
      }
      i := i + 1;
    }
  }

  method ScanCommands(acc: seq<Hit>, m: Module, q: string) returns (results: seq<Hit>)
    ensures results == CommandsFrom(acc, m.commands, m.id, q)
  {
    results := acc;
    var i := 0;
    while i < |m.commands|
      invariant 0 <= i <= |m.commands|
      invariant CommandsFrom(results, m.commands[i..], m.id, q) == CommandsFrom(acc, m.commands, m.id, q)
    {
      assert m.commands[i..][1..] == m.commands[i + 1..];
      var c := m.commands[i];
      ghost var before := results;
      assert before + [] == before;
      if CommandMatches(c, q) {
        results := results + [CommandHitOf(c, m.id, false)];
      }
      results := ScanExamples(results, c, m.id, q);
      assert results == CommandStep(before, c, m.id, q);
      i := i + 1;
    }
  }

  /** The nested search loops. */
  method SearchCodex(modules: seq<Module>, query: string, maxResults: int) returns (r: seq<Hit>)
    ensures r == Search(modules, query, maxResults)
  {
    var q := Lower(query);
    var results: seq<Hit> := [];
    var i := 0;
    while i < |modules|
      invariant 0 <= i <= |modules|
      invariant ModulesFrom(results, modules[i..], q) == ModulesFrom([], modules, q)
    {
      assert modules[i..][1..] == modules[i + 1..];
      var m := modules[i];
      ghost var before := results;
      assert before + [] == before;
      if ModuleMatches(m, q) {
        results := results + [ModuleHitOf(m)];
      }
      results := ScanCommands(results, m, q);
      assert results == ModuleStep(before, m, q);
      i := i + 1;
    }
    r := Take(results, maxResults);
  }

  /** Once a command's id is among the command results, its examples add
    * nothing. */
  lemma {:induction false} ExamplesAfterHit(acc: seq<Hit>, c: Command, moduleId: string, q: string, examples: seq<string>)
    requires c.id in CommandIds(acc)
    ensures ExamplesFrom(acc, c, moduleId, q, examples) == acc
  {
    if examples != [] {
      ExamplesAfterHit(acc, c, moduleId, q, examples[1..]);
    }
  }

  /** A command's examples add at most one result, and only for a command
    * not already among the command results. */
  lemma {:induction false} ExamplesAddOnce(acc: seq<Hit>, c: Command, moduleId: string, q: string, examples: seq<string>)
    ensures var r := ExamplesFrom(acc, c, moduleId, q, examples);
      r == acc || (r == acc + [CommandHitOf(c, moduleId, true)] && c.id !in CommandIds(acc))
  {
    if examples != [] {
      var next := ExampleStep(acc, c, moduleId, q, examples[0]);
      if next == acc {
        ExamplesAddOnce(acc, c, moduleId, q, examples[1..]);
      } else {
        CommandIdsAppend(acc, [CommandHitOf(c, moduleId, true)]);
        assert CommandIds([CommandHitOf(c, moduleId, true)]) == [c.id];
        ExamplesAfterHit(next, c, moduleId, q, examples[1..]);
      }
    }
  }

  /** Each command adds at most one result: a direct match, or else at most
    * one example match, never for a command that is already a result. */
  lemma CommandAddsOne(acc: seq<Hit>, c: Command, moduleId: string, q: string)
    ensures var r := CommandStep(acc, c, moduleId, q);
      if CommandMatches(c, q) then r == acc + [CommandHitOf(c, moduleId, false)]
      else r == acc || (r == acc + [CommandHitOf(c, moduleId, true)] && c.id !in CommandIds(acc))
  {
    if CommandMatches(c, q) {
      var next := acc + [CommandHitOf(c, moduleId, false)];
      CommandIdsAppend(acc, [CommandHitOf(c, moduleId, false)]);
      assert CommandIds([CommandHitOf(c, moduleId, false)]) == [c.id];
      ExamplesAfterHit(next, c, moduleId, q, c.examples);
    } else {
      assert acc + [] == acc;
      ExamplesAddOnce(acc, c, moduleId, q, c.examples);
    }
  }

  /** The module results of a search: the matching modules, in order. */
  function ModuleHits(modules: seq<Module>, q: string): seq<Hit>
  {
    if modules == [] then [] else (if ModuleMatches(modules[0], q) then [ModuleHitOf(modules[0])] else []) + ModuleHits(modules[1..], q)
  }

  predicate IsModuleHit(h: Hit) { h.ModuleHit? }

  lemma {:induction false} ExamplesKeepModuleHits(acc: seq<Hit>, c: Command, moduleId: string, q: string, examples: seq<string>)
    ensures Filter(ExamplesFrom(acc, c, moduleId, q, examples), IsModuleHit) == Filter(acc, IsModuleHit)
  {
    ExamplesAddOnce(acc, c, moduleId, q, examples);
    FilterAppend(acc, [CommandHitOf(c, moduleId, true)], IsModuleHit);
  }

  lemma {:induction false} CommandsKeepModuleHits(acc: seq<Hit>, commands: seq<Command>, moduleId: string, q: string)
    ensures Filter(CommandsFrom(acc, commands, moduleId, q), IsModuleHit) == Filter(acc, IsModuleHit)
    decreases commands
  {
    if commands != [] {
      var c := commands[0];
      var next := acc + (if CommandMatches(c, q) then [CommandHitOf(c, moduleId, false)] else []);
      FilterAppend(acc, if CommandMatches(c, q) then [CommandHitOf(c, moduleId, false)] else [], IsModuleHit);
      ExamplesKeepModuleHits(next, c, moduleId, q, c.examples);
      CommandsKeepModuleHits(CommandStep(acc, c, moduleId, q), commands[1..], moduleId, q);
    }
  }

  lemma {:induction false} ModulesFromModuleHits(acc: seq<Hit>, modules: seq<Module>, q: string)
    ensures Filter(ModulesFrom(acc, modules, q), IsModuleHit) == Filter(acc, IsModuleHit) + ModuleHits(modules, q)
    decreases modules
  {
    if modules == [] {
      assert Filter(acc, IsModuleHit) + [] == Filter(acc, IsModuleHit);
    } else {
      var m := modules[0];
      var own := if ModuleMatches(m, q) then [ModuleHitOf(m)] else [];
      var step := ModuleStep(acc, m, q);
      ModuleStepModuleHits(acc, m, q);
      ModulesFromModuleHits(step, modules[1..], q);
      RegroupHits(Filter(ModulesFrom(step, modules[1..], q), IsModuleHit), Filter(step, IsModuleHit),
                  Filter(acc, IsModuleHit), own, ModuleHits(modules[1..], q));
    }
  }

  /** `all == (pre + own) + rest`, regrouped around the hits a module adds. */
  lemma RegroupHits(all: seq<Hit>, mid: seq<Hit>, pre: seq<Hit>, own: seq<Hit>, rest: seq<Hit>)
    requires all == mid + rest && mid == pre + own
    ensures all == pre + (own + rest)
  {
  }

  lemma ModuleStepModuleHits(acc: seq<Hit>, m: Module, q: string)
    ensures Filter(ModuleStep(acc, m, q), IsModuleHit)
            == Filter(acc, IsModuleHit) + (if ModuleMatches(m, q) then [ModuleHitOf(m)] else [])
  {
    var own := if ModuleMatches(m, q) then [ModuleHitOf(m)] else [];
    FilterAppend(acc, own, IsModuleHit);
    assert Filter(own, IsModuleHit) == own;
    CommandsKeepModuleHits(acc + own, m.commands, m.id, q);
  }

  /** Leaving the command results aside, the full search lists exactly the
    * modules whose name or description contains the query, in order. */
  lemma SearchModuleHits(modules: seq<Module>, query: string)
    ensures Filter(ModulesFrom([], modules, Lower(query)), IsModuleHit) == ModuleHits(modules, Lower(query))
  {
    ModulesFromModuleHits([], modules, Lower(query));
  }

  /** The search result is the start of the full traversal. */
  lemma SearchIsPrefix(modules: seq<Module>, query: string, maxResults: int)
    ensures var all := ModulesFrom([], modules, Lower(query));
      Search(modules, query, maxResults) == all[..|Search(modules, query, maxResults)|]
    ensures 0 <= maxResults ==> |Search(modules, query, maxResults)| <= maxResults
  {
  }

  // ---------------------------------------------------------------------------
  // get_page_by_id

  /** A page: a module with the dictionary's "type" entry, or a command's
    * rendered content. */
  datatype Page = ModulePage(kind: string, entry: Module) | CommandPage(id: string, content: string)

  /** The page dictionary's "type" value. */
  function PageType(p: Page): string
  {
    match p
    case ModulePage(kind, _) => kind
    case CommandPage(_, _) => "command"
  }

  /** `get_page_by_id` as written: `{"type": "module", **module}` lets the
    * module's own "type" replace the marker. */
  function PageByIdAsWritten(modules: seq<Module>, pageId: string): (r: Option<Page>)
    ensures r.Some? && r.value.ModulePage? ==> r.value.kind == r.value.entry.kind.GetOr("module")
  {
    match ModuleByName(modules, pageId)
    case Some(m) => Some(ModulePage(m.kind.GetOr("module"), m))
    case None =>
      if '.' in pageId then
        match PageContent(modules, pageId)
        case Ok(content) => Some(CommandPage(pageId, content))
        case Err(_) => None
      else None
  }

  /** A module of type "Core" is reported with type "Core", so the page no
    * longer says it is a module. */
  lemma PageTypeOverridden()
    ensures var m := Module("A", "Modul A: Allgemeine Befehle", "", Some("Core"), [], []);
      PageByIdAsWritten([m], "A") == Some(ModulePage("Core", m))
      && PageType(PageByIdAsWritten([m], "A").value) != "module"
  {
    var m := Module("A", "Modul A: Allgemeine Befehle", "", Some("Core"), [], []);
    assert Upper("A") == "A";
    assert FirstById([m], "A") == Some(0);
  }

  /** `get_page_by_id` with the marker kept: a module page, else for an id
    * with a "." the command page, else `None`; an error is `None`. */
  function PageById(modules: seq<Module>, pageId: string): (r: Option<Page>)
    ensures r.Some? ==> (PageType(r.value) == "module" <==> r.value.ModulePage?)
    ensures r.Some? && r.value.ModulePage? ==> ModuleByName(modules, pageId) == Some(r.value.entry)
    ensures r.Some? && r.value.CommandPage? ==> r.value.id == pageId && PageContent(modules, pageId) == Ok(r.value.content)
    ensures r.None? <==> ModuleByName(modules, pageId).None? && PageContent(modules, pageId).Err?
  {
    match ModuleByName(modules, pageId)
    case Some(m) => Some(ModulePage("module", m))
    case None =>
      if '.' in pageId then
        match PageContent(modules, pageId)
        case Ok(content) => Some(CommandPage(pageId, content))
        case Err(_) => None
      else None
  }

  // ---------------------------------------------------------------------------
  // Filters

  /** `get_modules_by_tag` */
  function ModulesByTag(modules: seq<Module>, tag: string): (r: seq<Module>)
    ensures forall m :: m in r <==> m in modules && tag in m.tags
    ensures IsSubsequence(r, modules)
  {
    FilterSubsequence(modules, (m: Module) => tag in m.tags);
    Filter(modules, (m: Module) => tag in m.tags)
  }

  /** `get_modules_by_type`: a module without a type never matches. */
  function ModulesByType(modules: seq<Module>, kind: string): (r: seq<Module>)
    ensures forall m :: m in r <==> m in modules && m.kind == Some(kind)
    ensures IsSubsequence(r, modules)
  {
    FilterSubsequence(modules, (m: Module) => m.kind == Some(kind));
    Filter(modules, (m: Module) => m.kind == Some(kind))
  }

  // ---------------------------------------------------------------------------
  // get_statistics

  datatype Stats = Stats(
    version: string, totalModules: nat, totalCommands: nat, moduleTypes: seq<Option<string>>,
    totalTags: nat, tags: seq<string>)

  function CommandCount(modules: seq<Module>): nat
  {
    if modules == [] then 0 else CommandCount(modules[..|modules| - 1]) + |modules[|modules| - 1].commands|
  }

  function AllTags(modules: seq<Module>): set<string>
  {
    if modules == [] then {}
    else
      var tags := modules[|modules| - 1].tags;
      AllTags(modules[..|modules| - 1]) + (set t | t in tags)
  }

  function AllTypes(modules: seq<Module>): set<Option<string>>
  {
    if modules == [] then {} else AllTypes(modules[..|modules| - 1]) + {modules[|modules| - 1].kind}
  }

  predicate Distinct<T(==)>(s: seq<T>)
  {
    forall i, j :: 0 <= i < j < |s| ==> s[i] != s[j]
  }

  /** `set.add`, keeping first-seen order. */
  function AddDistinct<T(==)>(s: seq<T>, x: T): (r: seq<T>)
    requires Distinct(s)
    ensures Distinct(r) && (set y | y in r) == (set y | y in s) + {x}
  {
    if x in s then s else s + [x]
  }

  /** `set.update(tags)`, keeping first-seen order. */
  method AddAll(s: seq<string>, tags: seq<string>) returns (r: seq<string>)
    requires Distinct(s)
    ensures Distinct(r) && (set y | y in r) == (set y | y in s) + (set t | t in tags)
  {
    r := s;
    for i := 0 to |tags|
      invariant Distinct(r) && (set y | y in r) == (set y | y in s) + (set t | t in tags[..i])
    {
      assert tags[..i + 1] == tags[..i] + [tags[i]];
      r := AddDistinct(r, tags[i]);
    }
    assert tags[..|tags|] == tags;
  }

  lemma {:induction false} DistinctCount<T>(s: seq<T>, x: T)
    requires Distinct(s)
    ensures multiset(s)[x] <= 1
  {
    if s != [] {
      assert s == [s[0]] + s[1..];
      assert Distinct(s[1..]) by {
        forall i, j | 0 <= i < j < |s[1..]| ensures s[1..][i] != s[1..][j] {
          assert s[1..][i] == s[i + 1] && s[1..][j] == s[j + 1];
        }
      }
      DistinctCount(s[1..], x);
      if s[0] == x {
        assert forall k :: 0 <= k < |s[1..]| ==> s[1..][k] == s[k + 1];
        assert x !in s[1..];
      }
    }
  }

  lemma RepeatCount<T>(s: seq<T>, i: nat, j: nat)
    requires i < j < |s| && s[i] == s[j]
    ensures multiset(s)[s[i]] >= 2
  {
    assert s == s[..i] + [s[i]] + s[i + 1..j] + [s[j]] + s[j + 1..];
  }

  /** A permutation of a list without repeats has none. */
  lemma DistinctPermutation<T>(a: seq<T>, b: seq<T>)
    requires Distinct(a) && multiset(a) == multiset(b)
    ensures Distinct(b) && (set y | y in b) == (set y | y in a)
    ensures forall y :: y in b <==> y in a
  {
    forall i, j | 0 <= i < j < |b| ensures b[i] != b[j] {
      if b[i] == b[j] {
        RepeatCount(b, i, j);
        DistinctCount(a, b[i]);
      }
    }
    assert forall y :: y in b <==> y in multiset(b);
    assert forall y :: y in a <==> y in multiset(a);
  }

  /** The values of a list of present types. */
  function Values(s: seq<Option<string>>): (r: seq<string>)
    requires None !in s
    ensures |r| == |s| && forall k :: 0 <= k < |s| ==> s[k] == Some(r[k])
    ensures forall x :: x in r <==> Some(x) in s
  {
    assert forall k :: 0 <= k < |s| ==> s[k] in s;
    var r := seq(|s|, k requires 0 <= k < |s| => s[k].value);
    assert forall x :: Some(x) in s ==> x in r by {
      forall x | Some(x) in s ensures x in r {
        var k :| 0 <= k < |s| && s[k] == Some(x);
        assert r[k] == x;
      }
    }
    assert forall x :: x in r ==> Some(x) in s by {
      forall x | x in r ensures Some(x) in s {
        var k :| 0 <= k < |r| && r[k] == x;
        assert s[k] == Some(x);
      }
    }
    assert forall k :: 0 <= k < |s| ==> s[k] == Some(r[k]);
    r
  }

  /** Each string as a present type. */
  function Somes(s: seq<string>): (r: seq<Option<string>>)
    ensures |r| == |s| && forall k :: 0 <= k < |s| ==> r[k] == Some(s[k])
    ensures forall y :: y in r <==> y.Some? && y.value in s
  {
    var r := seq(|s|, k requires 0 <= k < |s| => Some(s[k]));
    assert forall y: Option<string> :: y.Some? && y.value in s ==> y in r by {
      forall y: Option<string> | y.Some? && y.value in s ensures y in r {
        var k :| 0 <= k < |s| && s[k] == y.value;
        assert r[k] == y;
      }
    }
    r
  }

  /** The present types, distinct, in string order. */
  function SortedSomes(types: seq<Option<string>>): (r: seq<Option<string>>)
    requires Distinct(types) && None !in types
    ensures Distinct(r) && forall y :: y in r <==> y in types
    ensures forall i, j :: 0 <= i < j < |r| ==> r[i].Some? && r[j].Some? && Sorting.StrLe(r[i].value, r[j].value)
  {
    ValuesDistinct(types);
    var sorted := Sorting.SortStrings(Values(types));
    DistinctPermutation(Values(types), sorted);
    SomesDistinct(sorted);
    SomesOfValues(types, sorted);
    Somes(sorted)
  }

  lemma ValuesDistinct(types: seq<Option<string>>)
    requires Distinct(types) && None !in types
    ensures Distinct(Values(types))
  {
    var values := Values(types);
    forall i, j | 0 <= i < j < |values| ensures values[i] != values[j] {
      assert types[i] == Some(values[i]) && types[j] == Some(values[j]);
    }
  }

  lemma SomesDistinct(s: seq<string>)
    requires Distinct(s)
    ensures Distinct(Somes(s))
  {
    var r := Somes(s);
    forall i, j | 0 <= i < j < |r| ensures r[i] != r[j] {
      assert r[i] == Some(s[i]) && r[j] == Some(s[j]);
    }
  }

  lemma SomesOfValues(types: seq<Option<string>>, sorted: seq<string>)
    requires None !in types
    requires forall x :: x in sorted <==> x in Values(types)
    ensures forall y :: y in Somes(sorted) <==> y in types
  {
    forall y | y in Somes(sorted) ensures y in types {
      assert y.Some? && y.value in sorted;
      assert y == Some(y.value);
    }
    forall y | y in types ensures y in Somes(sorted) {
      assert y.Some? && y == Some(y.value);
      assert y.value in Values(types);
    }
  }

  /** `sorted` of the distinct types: `None` cannot be compared with a
    * string, so a missing type beside a present one raises. */
  method SortTypes(types: seq<Option<string>>) returns (r: Result<seq<Option<string>>, string>)
    requires Distinct(types)
    ensures r.Err? <==> None in types && |types| >= 2
    ensures r.Ok? ==> Distinct(r.value) && forall y :: y in r.value <==> y in types
    ensures r.Ok? && None !in types ==>
      forall i, j :: 0 <= i < j < |r.value| ==> r.value[i].Some? && r.value[j].Some? && Sorting.StrLe(r.value[i].value, r.value[j].value)
  {
    if None in types {
      if |types| >= 2 {
        return Err(AgentDispatch.Raised);
      }
      return Ok(types);
    }
    return Ok(SortedSomes(types));
  }

  /** `get_statistics`: the number of modules and commands, and the distinct
    * types and tags, each sorted. */
  method Statistics(version: Option<string>, modules: seq<Module>) returns (r: Result<Stats, string>)
    ensures r.Err? <==> None in AllTypes(modules) && |AllTypes(modules)| >= 2
    ensures r.Ok? ==> r.value.version == version.GetOr("unknown") && r.value.totalModules == |modules|
                      && r.value.totalCommands == CommandCount(modules)
    ensures r.Ok? ==> Distinct(r.value.moduleTypes) && (set y | y in r.value.moduleTypes) == AllTypes(modules)
    ensures r.Ok? && None !in AllTypes(modules) ==>
      forall i, j :: 0 <= i < j < |r.value.moduleTypes| ==>
        r.value.moduleTypes[i].Some? && r.value.moduleTypes[j].Some? &&
        Sorting.StrLe(r.value.moduleTypes[i].value, r.value.moduleTypes[j].value)
    ensures r.Ok? ==> Distinct(r.value.tags) && (set y | y in r.value.tags) == AllTags(modules)
                      && Sorting.StrSorted(r.value.tags) && r.value.totalTags == |r.value.tags|
  {
    var total := 0;
    var types: seq<Option<string>> := [];
    var tags: seq<string> := [];
    for i := 0 to |modules|
      invariant total == CommandCount(modules[..i])
      invariant Distinct(types) && (set y | y in types) == AllTypes(modules[..i])
      invariant Distinct(tags) && (set y | y in tags) == AllTags(modules[..i])
    {
      assert modules[..i + 1][..i] == modules[..i];
      total := total + |modules[i].commands|;
      types := AddDistinct(types, modules[i].kind);
      tags := AddAll(tags, modules[i].tags);
    }
    assert modules[..|modules|] == modules;
    DistinctCard(types);
    var sortedTypes := SortTypes(types);
    if sortedTypes.Err? {
      return Err(sortedTypes.error);
    }
    var sortedTags := Sorting.SortStrings(tags);
    DistinctPermutation(tags, sortedTags);
    return Ok(Stats(version.GetOr("unknown"), |modules|, total, sortedTypes.value, |sortedTags|, sortedTags));
  }

  /** A list without repeats has as many elements as its set. */
  lemma {:induction false} DistinctCard<T>(s: seq<T>)
    requires Distinct(s)
    ensures |set y | y in s| == |s|
  {
    if s != [] {
      var last := s[|s| - 1];
      var init := s[..|s| - 1];
      assert Distinct(init);
      DistinctCard(init);
      assert (set y | y in s) == (set y | y in init) + {last} by {
        assert s == init + [last];
      }
      assert last !in init;
    }
  }
}
