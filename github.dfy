// Repository automation over the GitHub API: the audit of a repository's
// branches and open pull requests, the merge of one pull request, the
// automatic merge of all of them oldest first, and the commands for changing
// the default branch. The API itself is outside: what it returns (or the
// exception it raises) is a parameter.
module GitHub {
  import opened Wrappers
  import opened Seqs
  import opened PyStr
  import Sorting

  // ---------------------------------------------------------------------------
  // Orders

  /** Ascending by a string key, as `sort(key=…)`. */
  function ByKey<T>(key: T -> string): (T, T) -> bool
  {
    (a: T, b: T) => Sorting.StrLe(key(a), key(b))
  }

  /** Descending by a string key, as `sort(key=…, reverse=True)`; equal keys
    * keep their order in both. */
  function ByKeyDesc<T>(key: T -> string): (T, T) -> bool
  {
    (a: T, b: T) => Sorting.StrLe(key(b), key(a))
  }

  lemma StrLeTotal(a: string, b: string)
    ensures Sorting.StrLe(a, b) || Sorting.StrLe(b, a)
  {
    if a != b { Sorting.StrLtTotal(a, b); }
  }

  lemma StrLeTrans(a: string, b: string, c: string)
    requires Sorting.StrLe(a, b) && Sorting.StrLe(b, c)
    ensures Sorting.StrLe(a, c)
  {
    if a != b && b != c { Sorting.StrLtTrans(a, b, c); }
  }

  lemma KeyOrders<T(!new)>(key: T -> string)
    ensures Sorting.TotalPreorder(ByKey(key)) && Sorting.TotalPreorder(ByKeyDesc(key))
  {
    forall a: T, b: T ensures ByKey(key)(a, b) || ByKey(key)(b, a) {
      StrLeTotal(key(a), key(b));
    }
    forall a: T, b: T, c: T | ByKey(key)(a, b) && ByKey(key)(b, c) ensures ByKey(key)(a, c) {
      StrLeTrans(key(a), key(b), key(c));
    }
    forall a: T, b: T ensures ByKeyDesc(key)(a, b) || ByKeyDesc(key)(b, a) {
      StrLeTotal(key(a), key(b));
    }
    forall a: T, b: T, c: T | ByKeyDesc(key)(a, b) && ByKeyDesc(key)(b, c) ensures ByKeyDesc(key)(a, c) {
      StrLeTrans(key(c), key(b), key(a));
    }
  }

  // ---------------------------------------------------------------------------
  // audit_repository

  /** A commit's author as the API reports it. */
  datatype Author = Author(name: string, date: string)

  /** A branch as the API lists it: its name and last commit. */
  datatype BranchData = BranchData(name: string, sha: string, author: Option<Author>, message: string)

  /** A branch in the audit, with its last commit summarised. */
  datatype Branch = Branch(name: string, sha: string, author: string, date: Option<string>, firstLine: string)

  /** An open pull request as the API reports it; `mergeable` is `None`
    * while GitHub has not computed it. */
  datatype PullRequest = PullRequest(
    number: int, title: string, login: string, createdAt: string, updatedAt: string, draft: bool,
    mergeable: Option<bool>, mergeableState: string, head: string, base: string, url: string)

  /** A pull request in the audit. */
  datatype PullInfo = PullInfo(
    number: int, title: string, author: string, createdAt: string, updatedAt: string, draft: bool,
    mergeable: Option<bool>, mergeableState: string, headBranch: string, baseBranch: string, url: string,
    isDependabot: bool)

  datatype Audit = Audit(
    owner: string, repo: string, defaultBranch: string, branches: seq<Branch>, openPrs: seq<PullInfo>,
    totalBranches: nat, totalOpenPrs: nat, mergeablePrs: nat, draftPrs: nat)

  /** `message.split("\n")[0]` */
  function FirstLine(message: string): (r: string)
    ensures '\n' !in r && StartsWith(message, r)
    ensures |r| == |message| || message[|r|] == '\n'
  {
    SplitJoin(message, '\n');
    FirstSplitPrefix(message, '\n');
    Split(message, '\n')[0]
  }

  lemma {:induction false} FirstSplitPrefix(s: string, c: char)
    ensures StartsWith(s, Split(s, c)[0])
    ensures |Split(s, c)[0]| == |s| || s[|Split(s, c)[0]|] == c
    decreases |s|
  {
    if |s| > 0 && s[0] != c {
      FirstSplitPrefix(s[1..], c);
      var t := Split(s[1..], c);
      assert Split(s, c)[0] == [s[0]] + t[0];
      assert s == [s[0]] + s[1..];
    }
  }

  /** A branch's audit entry: "Unknown" author and no date when the commit
    * has no author, and the message's first line. */
  function BranchEntry(b: BranchData): (r: Branch)
    ensures r.name == b.name && r.sha == b.sha
    ensures r.author == (if b.author.Some? then b.author.value.name else "Unknown")
    ensures r.date.Some? <==> b.author.Some?
    ensures '\n' !in r.firstLine && StartsWith(b.message, r.firstLine)
    ensures |r.firstLine| == |b.message| || b.message[|r.firstLine|] == '\n'
  {
    match b.author
    case None => Branch(b.name, b.sha, "Unknown", None, FirstLine(b.message))
    case Some(a) => Branch(b.name, b.sha, a.name, Some(a.date), FirstLine(b.message))
  }

  /** The key branches are sorted by: the commit date, or "" without one. */
  function DateKey(b: Branch): string
  {
    b.date.GetOr("")
  }

  /** Newest commit first; a branch without a date sorts last. */
  function SortBranches(branches: seq<Branch>): (r: seq<Branch>)
    ensures multiset(r) == multiset(branches)
    ensures forall i, j :: 0 <= i < j < |r| ==> Sorting.StrLe(DateKey(r[j]), DateKey(r[i]))
  {
    KeyOrders(DateKey);
    Sorting.SortSorted(branches, ByKeyDesc(DateKey));
    Sorting.Sort(branches, ByKeyDesc(DateKey))
  }

  /** Nothing sorts after the empty string. */
  lemma NothingBelowEmpty(s: string)
    requires Sorting.StrLe(s, "")
    ensures s == ""
  {
  }

  /** After a branch without a date, no later branch has a date other than
    * the empty one: branches without a date come last. */
  lemma UndatedLast(branches: seq<Branch>, i: nat, j: nat)
    requires i < j < |SortBranches(branches)| && SortBranches(branches)[i].date.None?
    ensures DateKey(SortBranches(branches)[j]) == ""
  {
    NothingBelowEmpty(DateKey(SortBranches(branches)[j]));
  }

  /** `pr.user.login == "dependabot[bot]" or pr.user.login.startswith("dependabot")` */
  predicate IsDependabot(login: string)
  {
    login == "dependabot[bot]" || StartsWith(login, "dependabot")
  }

  /** The first test adds nothing: a pull request is Dependabot's exactly
    * when its login starts with "dependabot". */
  lemma DependabotByPrefix(login: string)
    ensures IsDependabot(login) <==> StartsWith(login, "dependabot")
  {
    if login == "dependabot[bot]" {
      assert login[..|"dependabot"|] == "dependabot";
    }
  }

  function Info(pr: PullRequest): (r: PullInfo)
    ensures r.number == pr.number && r.draft == pr.draft && r.mergeable == pr.mergeable
    ensures r.author == pr.login && r.isDependabot == IsDependabot(pr.login)
  {
    PullInfo(pr.number, pr.title, pr.login, pr.createdAt, pr.updatedAt, pr.draft, pr.mergeable,
             pr.mergeableState, pr.head, pr.base, pr.url, IsDependabot(pr.login))
  }

  /** `pr["mergeable"] and not pr["draft"]` */
  predicate ReadyToMerge(pr: PullInfo)
  {
    pr.mergeable == Some(true) && !pr.draft
  }

  predicate IsDraft(pr: PullInfo)
  {
    pr.draft
  }

  /** Elements meeting one of two exclusive conditions are at most all. */
  lemma {:induction false} CountExclusive<T>(s: seq<T>, f: T -> bool, g: T -> bool)
    requires forall x :: x in s ==> !(f(x) && g(x))
    ensures Count(s, f) + Count(s, g) <= |s|
  {
    if s != [] {
      assert forall x :: x in s[1..] ==> x in s;
      assert s[0] in s;
      CountExclusive(s[1..], f, g);
    }
  }

  /** Elements meeting a condition and those failing it are all of them. */
  lemma {:induction false} CountComplement<T>(s: seq<T>, f: T -> bool, g: T -> bool)
    requires forall x :: x in s ==> g(x) == !f(x)
    ensures Count(s, f) + Count(s, g) == |s|
  {
    if s != [] {
      assert forall x :: x in s[1..] ==> x in s;
      assert s[0] in s;
      CountComplement(s[1..], f, g);
    }
  }

  /** The branch entries, in the order listed. */
  method BranchEntries(branchList: seq<BranchData>) returns (branches: seq<Branch>)
    ensures branches == seq(|branchList|, k requires 0 <= k < |branchList| => BranchEntry(branchList[k]))
  {
    branches := [];
    for i := 0 to |branchList|
      invariant |branches| == i && forall k :: 0 <= k < i ==> branches[k] == BranchEntry(branchList[k])
    {
      branches := branches + [BranchEntry(branchList[i])];
    }
  }

  /** The pull request entries, in the order listed. */
  method PullInfos(pulls: seq<PullRequest>) returns (openPrs: seq<PullInfo>)
    ensures |openPrs| == |pulls| && forall k :: 0 <= k < |pulls| ==> openPrs[k] == Info(pulls[k])
  {
    openPrs := [];
    for i := 0 to |pulls|
      invariant |openPrs| == i && forall k :: 0 <= k < i ==> openPrs[k] == Info(pulls[k])
    {
      openPrs := openPrs + [Info(pulls[i])];
    }
  }

  /** `audit_repository` on what the API lists: the branches with their last
    * commits, newest first, and the open pull requests in the order listed,
    * with the counts. */
  method AuditRepository(owner: string, repo: string, defaultBranch: string, branchList: seq<BranchData>, pulls: seq<PullRequest>)
    returns (a: Audit)
    ensures a.owner == owner && a.repo == repo && a.defaultBranch == defaultBranch
    ensures a.branches == SortBranches(seq(|branchList|, k requires 0 <= k < |branchList| => BranchEntry(branchList[k])))
    ensures |a.openPrs| == |pulls| && forall k :: 0 <= k < |pulls| ==> a.openPrs[k] == Info(pulls[k])
    ensures a.totalBranches == |branchList| && a.totalOpenPrs == |pulls|
    ensures a.mergeablePrs == Count(a.openPrs, ReadyToMerge) && a.draftPrs == Count(a.openPrs, IsDraft)
    ensures a.mergeablePrs + a.draftPrs <= a.totalOpenPrs
  {
    var branches := BranchEntries(branchList);
    branches := SortBranches(branches);
    var openPrs := PullInfos(pulls);
    CountExclusive(openPrs, ReadyToMerge, IsDraft);
    a := Audit(owner, repo, defaultBranch, branches, openPrs, |branches|, |openPrs|,
               Count(openPrs, ReadyToMerge), Count(openPrs, IsDraft));
  }

  // ---------------------------------------------------------------------------
  // merge_pull_request

  /** What looking the pull request up gives: the repository could not be
    * reached (a `GitHubClientError`, raised on), the pull request could not
    * be fetched (a `GithubException`), or the pull request. */
  datatype Lookup = RepositoryError(message: string) | PullError(error: string) | Found(pr: PullRequest)

  /** What `pr.merge` gives: its result, or a `GithubException`. */
  datatype MergeCall = MergeDone(merged: bool, sha: string, message: string) | MergeError(error: string)

  /** The result dictionary of `merge_pull_request`, one constructor per
    * shape. */
  datatype MergeOutcome =
    | SkippedDraft(prNumber: int, message: string)
    | NotMergeable(prNumber: int, message: string, mergeableState: string)
    | Attempted(merged: bool, prNumber: int, sha: string, message: string, mergeMethod: string)
    | GithubError(prNumber: int, message: string, error: string)

  /** The "success" entry. */
  predicate Success(o: MergeOutcome)
  {
    o.Attempted? && o.merged
  }

  /** The "reason" entry, where there is one. */
  function Reason(o: MergeOutcome): Option<string>
  {
    match o
    case SkippedDraft(_, _) => Some("skipped_draft")
    case NotMergeable(_, _, _) => Some("not_mergeable")
    case Attempted(_, _, _, _, _) => None
    case GithubError(_, _, _) => Some("github_error")
  }

  function PrLabel(n: int): string
  {
    "PR #" + IntToStr(n)
  }

  /** `merge_pull_request`: a draft is skipped before mergeability is looked
    * at, a pull request that is not mergeable is left alone, and only then is
    * the merge attempted; an API error at any step is reported, a repository
    * error raised on. */
  function MergePullRequest(prNumber: int, mergeMethod: string, lookup: Lookup, call: MergeCall): (r: Result<MergeOutcome, string>)
    ensures r.Err? <==> lookup.RepositoryError?
    ensures r.Ok? ==> r.value.prNumber == prNumber
    ensures lookup.Found? && lookup.pr.draft ==> r.Ok? && Reason(r.value) == Some("skipped_draft")
    ensures r.Ok? && r.value.Attempted? ==>
      lookup.Found? && !lookup.pr.draft && lookup.pr.mergeable == Some(true) && call.MergeDone?
      && r.value.merged == call.merged && r.value.mergeMethod == mergeMethod
    ensures r.Ok? && Reason(r.value) == Some("not_mergeable") ==> lookup.Found? && !lookup.pr.draft && lookup.pr.mergeable != Some(true)
    ensures r.Ok? && Reason(r.value) == Some("github_error") ==>
      lookup.PullError? || (lookup.Found? && !lookup.pr.draft && lookup.pr.mergeable == Some(true) && call.MergeError?)
  {
    match lookup
    case RepositoryError(message) => Err(message)
    case PullError(e) => Ok(GithubError(prNumber, "GitHub API error: " + e, e))
    case Found(pr) =>
      if pr.draft then
        Ok(SkippedDraft(prNumber, PrLabel(prNumber) + " is a draft and was skipped"))
      else if pr.mergeable != Some(true) then
        Ok(NotMergeable(prNumber, PrLabel(prNumber) + " is not mergeable (state: " + pr.mergeableState + ")", pr.mergeableState))
      else
        match call
        case MergeError(e) => Ok(GithubError(prNumber, "GitHub API error: " + e, e))
        case MergeDone(merged, sha, message) => Ok(Attempted(merged, prNumber, sha, message, mergeMethod))
  }

  /** A merge succeeds only for a pull request that is neither a draft nor
    * unmergeable, and whose merge the API confirms. */
  lemma MergeSuccess(prNumber: int, mergeMethod: string, lookup: Lookup, call: MergeCall)
    ensures var r := MergePullRequest(prNumber, mergeMethod, lookup, call);
      r.Ok? && Success(r.value) <==>
        lookup.Found? && !lookup.pr.draft && lookup.pr.mergeable == Some(true) && call.MergeDone? && call.merged
  {
  }

  // ---------------------------------------------------------------------------
  // auto_merge_prs

  /** One entry of the report: the merge result with the pull request's
    * title and author. */
  datatype MergeEntry = MergeEntry(outcome: MergeOutcome, prTitle: string, prAuthor: string)

  datatype Report = Report(
    owner: string, repo: string, totalPrs: nat, mergeMethod: string, results: seq<MergeEntry>,
    stoppedEarly: bool, stopReason: Option<string>, successfulMerges: nat, failedMerges: nat, skippedDrafts: nat)

  /** A result after which the automatic merge stops. */
  predicate Stops(o: MergeOutcome)
  {
    !Success(o) && (Reason(o) == Some("not_mergeable") || Reason(o) == Some("github_error"))
  }

  function CreatedKey(pr: PullInfo): string { pr.createdAt }

  function NotDraft(pr: PullInfo): bool { !pr.draft }

  /** The pull requests to merge: without drafts when they are skipped,
    * oldest first. */
  function Candidates(prs: seq<PullInfo>, skipDrafts: bool): (r: seq<PullInfo>)
    ensures skipDrafts ==> multiset(r) == multiset(Filter(prs, NotDraft))
    ensures !skipDrafts ==> multiset(r) == multiset(prs)
    ensures forall i, j :: 0 <= i < j < |r| ==> Sorting.StrLe(r[i].createdAt, r[j].createdAt)
  {
    OldestFirst(if skipDrafts then Filter(prs, NotDraft) else prs)
  }

  /** `prs.sort(key=lambda p: p["created_at"])` */
  function OldestFirst(prs: seq<PullInfo>): (r: seq<PullInfo>)
    ensures multiset(r) == multiset(prs)
    ensures forall i, j :: 0 <= i < j < |r| ==> Sorting.StrLe(CreatedKey(r[i]), CreatedKey(r[j]))
  {
    KeyOrders(CreatedKey);
    Sorting.SortSorted(prs, ByKey(CreatedKey));
    Sorting.Sort(prs, ByKey(CreatedKey))
  }

  /** With drafts skipped, no candidate is a draft. */
  lemma CandidatesNoDrafts(prs: seq<PullInfo>)
    ensures forall pr :: pr in Candidates(prs, true) ==> !pr.draft
  {
    forall pr | pr in Candidates(prs, true) ensures !pr.draft {
      assert pr in multiset(Candidates(prs, true));
      assert pr in Filter(prs, NotDraft);
    }
  }

  function Success'(e: MergeEntry): bool { Success(e.outcome) }
  function Failed(e: MergeEntry): bool { !Success(e.outcome) }
  function WasSkipped(e: MergeEntry): bool { Reason(e.outcome) == Some("skipped_draft") }

  function AutoMergeFailed(owner: string, repo: string, e: string): string
  {
    "Failed to auto-merge PRs in " + owner + "/" + repo + ": " + e
  }

  /** The merge of the candidate at position `k`. */
  function MergeAt(cands: seq<PullInfo>, k: nat, mergeMethod: string, lookups: int -> Lookup, calls: int -> MergeCall): Result<MergeOutcome, string>
    requires k < |cands|
  {
    MergePullRequest(cands[k].number, mergeMethod, lookups(cands[k].number), calls(cands[k].number))
  }

  /** The first `|results|` candidates were merged in order, each entry
    * carrying its pull request's title and author, and none but the last
    * stopped the run. */
  predicate MergedInOrder(cands: seq<PullInfo>, results: seq<MergeEntry>, mergeMethod: string,
                          lookups: int -> Lookup, calls: int -> MergeCall)
  {
    && |results| <= |cands|
    && (forall k :: 0 <= k < |results| ==>
          MergeAt(cands, k, mergeMethod, lookups, calls) == Ok(results[k].outcome)
          && results[k].prTitle == cands[k].title && results[k].prAuthor == cands[k].author)
    && (forall k :: 0 <= k < |results| - 1 ==> !Stops(results[k].outcome))
  }

  /** The loop of `auto_merge_prs`: merge the pull requests in order, and
    * `break` after the first that is not mergeable or meets an API error;
    * `error` is an exception raised out of a merge. */
  method MergeInOrder(prs: seq<PullInfo>, mergeMethod: string, lookups: int -> Lookup, calls: int -> MergeCall)
    returns (results: seq<MergeEntry>, stoppedEarly: bool, error: Option<string>)
    ensures MergedInOrder(prs, results, mergeMethod, lookups, calls)
    ensures error.None? ==> (stoppedEarly <==> results != [] && Stops(results[|results| - 1].outcome))
    ensures error.None? && !stoppedEarly ==> |results| == |prs|
    ensures error.Some? ==> exists k :: 0 <= k < |prs| && MergeAt(prs, k, mergeMethod, lookups, calls) == Err(error.value)
  {
    results := [];
    stoppedEarly := false;
    error := None;
    var i := 0;
    while i < |prs|
      invariant 0 <= i <= |prs| && |results| == i
      invariant MergedInOrder(prs, results, mergeMethod, lookups, calls)
      invariant forall k :: 0 <= k < i ==> !Stops(results[k].outcome)
    {
      var pr := prs[i];
      var outcome := MergePullRequest(pr.number, mergeMethod, lookups(pr.number), calls(pr.number));
      assert MergeAt(prs, i, mergeMethod, lookups, calls) == outcome;
      if outcome.Err? {
        error := Some(outcome.error);
        return;
      }
      results := results + [MergeEntry(outcome.value, pr.title, pr.author)];
      if !Success(outcome.value) && (Reason(outcome.value) == Some("not_mergeable") || Reason(outcome.value) == Some("github_error")) {
        stoppedEarly := true;
        return;
      }
      i := i + 1;
    }
  }

  /** `auto_merge_prs`: the audit's open pull requests, drafts dropped when
    * asked, merged oldest first one at a time, stopping after the first
    * that is not mergeable or meets an API error. `lookups` and `calls` are
    * what the API answers for each pull request number; any exception
    * raised on is reported wrapped. */
  method AutoMergePrs(owner: string, repo: string, mergeMethod: string, skipDrafts: bool, audit: Result<Audit, string>,
                      lookups: int -> Lookup, calls: int -> MergeCall)
    returns (r: Result<Report, string>)
    ensures audit.Err? ==> r == Err(AutoMergeFailed(owner, repo, audit.error))
    ensures r.Ok? ==> audit.Ok? && var cands := Candidates(audit.value.openPrs, skipDrafts); var rep := r.value;
      && rep.owner == owner && rep.repo == repo && rep.mergeMethod == mergeMethod && rep.totalPrs == |cands|
      && MergedInOrder(cands, rep.results, mergeMethod, lookups, calls)
      && (rep.stoppedEarly <==> rep.results != [] && Stops(rep.results[|rep.results| - 1].outcome))
      && (!rep.stoppedEarly ==> |rep.results| == |cands| && rep.stopReason == None)
      && (rep.stoppedEarly ==> rep.stopReason == Some(PrLabel(cands[|rep.results| - 1].number) + " could not be merged"))
      && rep.successfulMerges == Count(rep.results, Success') && rep.failedMerges == Count(rep.results, Failed)
      && rep.skippedDrafts == Count(rep.results, WasSkipped)
      && rep.successfulMerges + rep.failedMerges == |rep.results|
    ensures r.Err? && audit.Ok? ==> var cands := Candidates(audit.value.openPrs, skipDrafts);
      exists k :: 0 <= k < |cands| && MergeAt(cands, k, mergeMethod, lookups, calls).Err?
                  && r.error == AutoMergeFailed(owner, repo, MergeAt(cands, k, mergeMethod, lookups, calls).error)
  {
    if audit.Err? {
      return Err(AutoMergeFailed(owner, repo, audit.error));
    }
    var prs := Candidates(audit.value.openPrs, skipDrafts);
    var results, stoppedEarly, error := MergeInOrder(prs, mergeMethod, lookups, calls);
    if error.Some? {
      return Err(AutoMergeFailed(owner, repo, error.value));
    }
    var stopReason: Option<string> := None;
    if stoppedEarly {
      stopReason := Some(PrLabel(prs[|results| - 1].number) + " could not be merged");
    }
    CountComplement(results, Success', Failed);
    r := Ok(Report(owner, repo, |prs|, mergeMethod, results, stoppedEarly, stopReason,
                   Count(results, Success'), Count(results, Failed), Count(results, WasSkipped)));
  }

  // ---------------------------------------------------------------------------
  // generate_default_branch_commands

  datatype BranchCommands = BranchCommands(
    owner: string, repo: string, newDefaultBranch: string, note: string, ghCli: string, curl: string, webUi: string)

  lemma ContainsInfix(a: string, sub: string, b: string)
    ensures Contains(a + sub + b, sub)
  {
    assert (a + sub + b)[|a|..|a| + |sub|] == sub;
    ContainsAt(a + sub + b, sub, |a|);
  }

  /** The `gh` command. */
  function GhCommand(owner: string, repo: string, newDefault: string): (r: string)
    ensures StartsWith(r, "gh api repos/" + owner + "/" + repo + " --method PATCH")
    ensures EndsWith(r, "-f default_branch='" + newDefault + "'")
  {
    var head := "gh api repos/" + owner + "/" + repo + " --method PATCH";
    var tail := "-f default_branch='" + newDefault + "'";
    StartsWithConcat(head, " " + tail);
    assert (head + " " + tail)[|head + " " + tail| - |tail|..] == tail;
    head + " " + tail
  }

  /** The `curl` command. */
  function CurlCommand(owner: string, repo: string, newDefault: string): (r: string)
    ensures Contains(r, "https://api.github.com/repos/" + owner + "/" + repo)
    ensures Contains(r, "{\"default_branch\": \"" + newDefault + "\"}")
  {
    var api := "https://api.github.com/repos/" + owner + "/" + repo;
    var headers := " \\\n" + "  -H 'Authorization: Bearer $GITHUB_TOKEN' \\\n"
                   + "  -H 'Accept: application/vnd.github+json' \\\n" + "  -d '";
    var body := "{\"default_branch\": \"" + newDefault + "\"}";
    ContainsInfix("curl -X PATCH ", api, headers + body + "'");
    ContainsInfix("curl -X PATCH " + api + headers, body, "'");
    assert "curl -X PATCH " + api + (headers + body + "'") == "curl -X PATCH " + api + headers + body + "'";
    "curl -X PATCH " + api + headers + body + "'"
  }

  /** The steps in the web interface. */
  function WebSteps(owner: string, repo: string, newDefault: string): (r: string)
    ensures Contains(r, "https://github.com/" + owner + "/" + repo + "/settings/branches")
    ensures Contains(r, "Select '" + newDefault + "' from the dropdown")
  {
    var settings := "https://github.com/" + owner + "/" + repo + "/settings/branches";
    var select := "Select '" + newDefault + "' from the dropdown";
    var step2 := "\n2. In 'Default branch' section, click the switch icon\n3. ";
    var step4 := "\n4. Click 'Update' and confirm";
    ContainsInfix("1. Go to ", settings, step2 + select + step4);
    ContainsInfix("1. Go to " + settings + step2, select, step4);
    assert "1. Go to " + settings + (step2 + select + step4) == "1. Go to " + settings + step2 + select + step4;
    "1. Go to " + settings + step2 + select + step4
  }

  const AdminNote := "Changing the default branch requires admin permissions and cannot be fully automated via the GitHub API"

  /** `generate_default_branch_commands`: the gh, curl and web-interface
    * instructions, each naming the repository and the new default branch. */
  function DefaultBranchCommands(owner: string, repo: string, newDefault: string): (r: BranchCommands)
    ensures r.owner == owner && r.repo == repo && r.newDefaultBranch == newDefault
    ensures StartsWith(r.ghCli, "gh api repos/" + owner + "/" + repo + " --method PATCH")
    ensures EndsWith(r.ghCli, "-f default_branch='" + newDefault + "'")
    ensures Contains(r.curl, "https://api.github.com/repos/" + owner + "/" + repo)
    ensures Contains(r.curl, "{\"default_branch\": \"" + newDefault + "\"}")
    ensures Contains(r.webUi, "https://github.com/" + owner + "/" + repo + "/settings/branches")
    ensures Contains(r.webUi, "Select '" + newDefault + "' from the dropdown")
  {
    BranchCommands(owner, repo, newDefault, AdminNote, GhCommand(owner, repo, newDefault), CurlCommand(owner, repo, newDefault), WebSteps(owner, repo, newDefault))
  }
}
