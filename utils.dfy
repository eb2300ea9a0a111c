// Input validators and text transforms shared by the server's tools. Each
// validator's `ValueError` is an `Err` carrying the exception's message.
module Validation {
  import opened Wrappers
  import opened Seqs
  import opened PyStr

  /** Python's `not s or not s.strip()`. */
  predicate Blank(s: string)
  {
    Strip(s) == []
  }

  predicate IsHexChar(c: char)
  {
    '0' <= c <= '9' || 'a' <= c <= 'f' || 'A' <= c <= 'F'
  }

  predicate AllHex(s: string)
  {
    forall i :: 0 <= i < |s| ==> IsHexChar(s[i])
  }

  /** `re.match(r"^[a-f0-9]{32}$", s, re.IGNORECASE)`: 32 hex digits of either
    * case, where `$` also accepts one newline at the very end. */
  predicate PageIdShape(s: string)
  {
    (|s| == 32 && AllHex(s)) || (|s| == 33 && AllHex(s[..32]) && s[32] == '\n')
  }

  function Dashless(s: string): (r: string)
    ensures '-' !in r
    ensures forall c :: c in r <==> c in s && c != '-'
  {
    FilterChars(s, (c: char) => c != '-')
  }

  /** The characters of `s` that satisfy `keep`, in order. */
  function FilterChars(s: string, keep: char -> bool): (r: string)
    ensures forall c :: c in r <==> c in s && keep(c)
    ensures |r| <= |s|
  {
    Filter(s, keep)
  }

  /** `validate_page_id` */
  function ValidatePageId(pageId: string): (r: Result<string, string>)
    ensures r.Ok? <==> !Blank(pageId) && PageIdShape(Dashless(pageId))
    ensures r.Ok? ==> r.value == Dashless(pageId) && '-' !in r.value
    ensures Blank(pageId) ==> r == Err("Page ID cannot be empty")
  {
    if Blank(pageId) then Err("Page ID cannot be empty")
    else
      var clean := Dashless(pageId);
      if !PageIdShape(clean) then Err("Invalid page ID format: " + pageId)
      else Ok(clean)
  }

  /** A validated page id validates to itself. */
  lemma PageIdIdempotent(pageId: string)
    requires ValidatePageId(pageId).Ok?
    ensures ValidatePageId(ValidatePageId(pageId).value) == ValidatePageId(pageId)
  {
    var clean := ValidatePageId(pageId).value;
    DashlessNoDash(clean);
    assert clean[0] in clean;
    assert !IsSpace(clean[0]);
    NotBlank(clean, 0);
  }

  lemma {:induction false} DashlessNoDash(s: string)
    requires '-' !in s
    ensures Dashless(s) == s
  {
    if s != [] {
      assert s == [s[0]] + s[1..];
      DashlessNoDash(s[1..]);
    }
  }

  /** A string with a non-whitespace character is not blank. */
  lemma NotBlank(s: string, i: nat)
    requires i < |s| && !IsSpace(s[i])
    ensures !Blank(s)
  {
    StripKeeps(s, i);
  }

  lemma {:induction false} StripKeeps(s: string, i: nat)
    requires i < |s| && !IsSpace(s[i])
    ensures Strip(s) != []
  {
    TrimStartKeeps(s, i);
    var t := TrimStart(s);
    TrimEndKeeps(t);
  }

  lemma {:induction false} TrimStartKeeps(s: string, i: nat)
    requires i < |s| && !IsSpace(s[i])
    ensures TrimStart(s) != []
  {
    if IsSpace(s[0]) {
      TrimStartKeeps(s[1..], i - 1);
    }
  }

  lemma TrimEndKeeps(s: string)
    requires s != [] && !IsSpace(s[0])
    ensures TrimEnd(s) != []
    decreases |s|
  {
    if IsSpace(s[|s| - 1]) {
      TrimEndKeeps(s[..|s| - 1]);
    }
  }

  /** `validate_query_string` */
  function ValidateQuery(query: string, maxLength: int): (r: Result<string, string>)
    ensures r.Ok? <==> !Blank(query) && |Strip(query)| <= maxLength
    ensures r.Ok? ==> r.value == Strip(query) && r.value != []
    ensures Blank(query) ==> r == Err("Query string cannot be empty")
  {
    if Blank(query) then Err("Query string cannot be empty")
    else
      var q := Strip(query);
      if |q| > maxLength then Err("Query too long (max " + IntToStr(maxLength) + " characters)")
      else Ok(q)
  }

  /** A validated query validates to itself. */
  lemma QueryIdempotent(query: string, maxLength: int)
    requires ValidateQuery(query, maxLength).Ok?
    ensures ValidateQuery(ValidateQuery(query, maxLength).value, maxLength) == ValidateQuery(query, maxLength)
  {
    var q := Strip(query);
    StripIdempotent(query);
  }

  lemma StripIdempotent(s: string)
    ensures Strip(Strip(s)) == Strip(s)
  {
    var t := Strip(s);
    if t != [] {
      TrimEndStart(TrimStart(s));
      StripNoEdgeSpace(t);
    }
  }

  /** Trimming the end keeps a non-space start. */
  lemma TrimEndStart(s: string)
    requires s == [] || !IsSpace(s[0])
    ensures TrimEnd(s) == [] || !IsSpace(TrimEnd(s)[0])
    decreases |s|
  {
    if |s| > 0 && IsSpace(s[|s| - 1]) {
      TrimEndStart(s[..|s| - 1]);
    }
  }

  /** Kept by `sanitize_text_output`: newline, tab and every code point from 32 up. */
  predicate Printable(c: char)
  {
    c == '\n' || c == '\t' || c as int >= 32
  }

  /** `sanitize_text_output` */
  function Sanitize(text: string): (r: string)
    ensures forall c :: c in r <==> c in text && Printable(c)
    ensures IsSubsequence(r, text)
  {
    FilterSubsequence(text, (c: char) => Printable(c));
    FilterChars(text, (c: char) => Printable(c))
  }

  /** Sanitising twice is sanitising once. */
  lemma SanitizeIdempotent(text: string)
    ensures Sanitize(Sanitize(text)) == Sanitize(text)
  {
    FilterAll(Sanitize(text), (c: char) => Printable(c));
  }

  /** `s[:n]` for any integer `n`: a negative `n` counts from the end. */
  function PyPrefix(s: string, n: int): (r: string)
    ensures |r| <= |s| && r == s[..|r|]
    ensures 0 <= n <= |s| ==> |r| == n
    ensures n < 0 && -n <= |s| ==> |r| == |s| + n
  {
    if n >= |s| then s
    else if n >= 0 then s[..n]
    else if |s| + n >= 0 then s[..|s| + n]
    else []
  }

  /** `truncate_text` */
  function Truncate(text: string, maxLength: int, suffix: string): (r: string)
    ensures text == [] || |text| <= maxLength ==> r == text
    ensures text != [] && |text| > maxLength ==> r == PyPrefix(text, maxLength - |suffix|) + suffix
  {
    if text == [] || |text| <= maxLength then text
    else PyPrefix(text, maxLength - |suffix|) + suffix
  }

  /** A truncated text is exactly `max_length` long when the suffix fits, and
    * starts with a prefix of the text. */
  lemma TruncateLength(text: string, maxLength: int, suffix: string)
    requires |text| > maxLength >= |suffix|
    ensures |Truncate(text, maxLength, suffix)| == maxLength
    ensures Truncate(text, maxLength, suffix) == text[..maxLength - |suffix|] + suffix
  {
  }

  /** When the suffix is longer than `max_length`, the negative slice bound
    * keeps all but the last few characters and the result can outgrow the
    * input: `"hello"` with 2 and `"..."` is `"hell..."`. */
  lemma TruncateNegativeBound()
    ensures Truncate("hello", 2, "...") == "hell..."
  {
    assert PyPrefix("hello", -1) == "hell";
  }

  /** The characters GitHub allows in owner and repository names. */
  predicate RepoNameChar(c: char)
  {
    IsAsciiAlnum(c) || c == '.' || c == '_' || c == '-'
  }

  /** `validate_github_repo_name` */
  function ValidateRepoName(name: string): (r: Result<string, string>)
    ensures r.Ok? <==> !Blank(name) && forall i :: 0 <= i < |Strip(name)| ==> RepoNameChar(Strip(name)[i])
    ensures r.Ok? ==> r.value == Strip(name) && r.value != []
    ensures Blank(name) ==> r == Err("Repository/owner name cannot be empty")
  {
    if Blank(name) then Err("Repository/owner name cannot be empty")
    else
      var n := Strip(name);
      if exists i :: 0 <= i < |n| && !RepoNameChar(n[i]) then Err("Invalid repository/owner name: " + n)
      else Ok(n)
  }

  const BranchForbidden := {' ', '~', '^', ':', '?', '*', '['}

  /** `validate_branch_name` */
  function ValidateBranchName(name: string): (r: Result<string, string>)
    ensures r.Ok? <==> !Blank(name) && forall c :: c in Strip(name) ==> c !in BranchForbidden
    ensures r.Ok? ==> r.value == Strip(name) && r.value != []
    ensures Blank(name) ==> r == Err("Branch name cannot be empty")
  {
    if Blank(name) then Err("Branch name cannot be empty")
    else
      var n := Strip(name);
      if exists c :: c in BranchForbidden && c in n then Err("Invalid branch name: " + n)
      else Ok(n)
  }

  /** Validated names validate to themselves. */
  lemma NamesIdempotent(name: string)
    ensures ValidateRepoName(name).Ok? ==> ValidateRepoName(ValidateRepoName(name).value) == ValidateRepoName(name)
    ensures ValidateBranchName(name).Ok? ==> ValidateBranchName(ValidateBranchName(name).value) == ValidateBranchName(name)
  {
    StripIdempotent(name);
  }
}
