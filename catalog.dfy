// The search loop the local and the Notion codex clients share: validate
// the query, then walk the entries, keeping those whose title, description
// or joined tags contain the lower-cased query, and stop once enough are kept.
module Catalog {
  import opened Wrappers
  import opened Seqs
  import opened PyStr
  import Validation
  import AgentDispatch

  /** The fields `search_codex` reads from an entry. */
  datatype View = View(titel: string, beschreibung: string, tags: seq<string>)

  /** `validate_query_string`'s default bound on the query. */
  const MaxQueryLength := 200

  /** The default `max_results`. */
  const DefaultMaxResults := 20

  /** An entry matches a lower-cased query in its title, its description or
    * its tags joined by spaces, each lower-cased. */
  predicate Matches(v: View, q: string)
  {
    Contains(Lower(v.titel), q) || Contains(Lower(v.beschreibung), q) || Contains(Lower(Join(v.tags, " ")), q)
  }

  /** An entry is a hit when its fields can be read and match. */
  predicate Hit<E>(view: E -> Option<View>, q: string, e: E)
  {
    view(e).Some? && Matches(view(e).value, q)
  }

  function HitOf<E>(view: E -> Option<View>, q: string): E -> bool
  {
    e => Hit(view, q, e)
  }

  /** How many results the loop can keep: it breaks after the first append
    * once `len(results) >= max_results`, so never fewer than one. */
  function Limit(maxResults: int): (n: nat)
    ensures n >= 1 && n >= maxResults
    ensures maxResults >= 1 ==> n == maxResults
  {
    if maxResults < 1 then 1 else maxResults
  }

  /** The loop over `entries` with `found` kept so far: `None` where reading
    * an entry's fields raises. */
  function Scan<E>(entries: seq<E>, view: E -> Option<View>, q: string, maxResults: int, found: seq<E>): Option<seq<E>>
  {
    if entries == [] then Some(found)
    else match view(entries[0])
      case None => None
      case Some(v) =>
        if Matches(v, q) then
          var kept := found + [entries[0]];
          if |kept| >= maxResults then Some(kept) else Scan(entries[1..], view, q, maxResults, kept)
        else Scan(entries[1..], view, q, maxResults, found)
  }

  /** `search_codex` on the loaded entries: the query's `ValueError`, the
    * error raised while reading an entry, or the entries found. */
  function Search<E>(entries: seq<E>, view: E -> Option<View>, query: string, maxResults: int): Result<seq<E>, string>
  {
    match Validation.ValidateQuery(query, MaxQueryLength)
    case Err(e) => Err(e)
    case Ok(q) =>
      match Scan(entries, view, Lower(q), maxResults, [])
      case None => Err(AgentDispatch.Raised)
      case Some(found) => Ok(found)
  }

  /** The search loop, with its early `break`. */
  method SearchCodex<E>(entries: seq<E>, view: E -> Option<View>, query: string, maxResults: int)
    returns (r: Result<seq<E>, string>)
    ensures r == Search(entries, view, query, maxResults)
  {
    var validated := Validation.ValidateQuery(query, MaxQueryLength);
    if validated.Err? {
      return Err(validated.error);
    }
    var q := Lower(validated.value);
    ghost var spec := Scan(entries, view, q, maxResults, []);
    var results: seq<E> := [];
    var i := 0;
    while i < |entries|
      invariant 0 <= i <= |entries|
      invariant Scan(entries[i..], view, q, maxResults, results) == spec
    {
      assert entries[i..][1..] == entries[i + 1..];
      var v := view(entries[i]);
      if v.None? {
        return Err(AgentDispatch.Raised);
      }
      if Matches(v.value, q) {
        results := results + [entries[i]];
        if |results| >= maxResults {
          return Ok(results);
        }
      }
      i := i + 1;
    }
    return Ok(results);
  }

  /** Where every entry can be read, the search keeps the first `Limit` hits
    * in their order, as many as there are up to that bound. */
  lemma SearchIsPrefix<E>(entries: seq<E>, view: E -> Option<View>, query: string, maxResults: int)
    requires forall k :: 0 <= k < |entries| ==> view(entries[k]).Some?
    requires Validation.ValidateQuery(query, MaxQueryLength).Ok?
    ensures var q := Lower(Validation.ValidateQuery(query, MaxQueryLength).value);
      Search(entries, view, query, maxResults) == Ok(Take(Filter(entries, HitOf(view, q)), Limit(maxResults)))
  {
    var q := Lower(Validation.ValidateQuery(query, MaxQueryLength).value);
    var hits := Take(Filter(entries, HitOf(view, q)), Limit(maxResults));
    ScanTake(entries, view, q, maxResults, []);
    assert [] + hits == hits;
    assert Scan(entries, view, q, maxResults, []) == Some(hits);
  }

  lemma {:induction false} ScanTake<E>(entries: seq<E>, view: E -> Option<View>, q: string, maxResults: int, found: seq<E>)
    requires forall k :: 0 <= k < |entries| ==> view(entries[k]).Some?
    requires |found| < Limit(maxResults)
    ensures Scan(entries, view, q, maxResults, found)
            == Some(found + Take(Filter(entries, HitOf(view, q)), Limit(maxResults) - |found|))
  {
    var f := HitOf(view, q);
    if entries == [] {
      assert found + Take(Filter(entries, f), Limit(maxResults) - |found|) == found;
    } else {
      var rest := entries[1..];
      assert forall k :: 0 <= k < |rest| ==> rest[k] == entries[k + 1];
      FilterCons(entries, f);
      ScanStep(entries, view, q, maxResults, found);
      if f(entries[0]) {
        var kept := found + [entries[0]];
        if |kept| < maxResults {
          ScanTake(rest, view, q, maxResults, kept);
        } else {
          assert Limit(maxResults) - |found| == 1;
        }
        TakeCons(found, entries[0], Filter(rest, f), Limit(maxResults) - |found|);
      } else {
        assert Filter(entries, f) == Filter(rest, f);
        ScanTake(rest, view, q, maxResults, found);
      }
    }
  }

  /** One pass of the search loop over a readable entry. */
  lemma ScanStep<E>(entries: seq<E>, view: E -> Option<View>, q: string, maxResults: int, found: seq<E>)
    requires entries != [] && view(entries[0]).Some?
    ensures HitOf(view, q)(entries[0]) <==> Matches(view(entries[0]).value, q)
    ensures var kept := found + [entries[0]];
      Scan(entries, view, q, maxResults, found)
        == if !HitOf(view, q)(entries[0]) then Scan(entries[1..], view, q, maxResults, found)
           else if |kept| >= maxResults then Some(kept)
           else Scan(entries[1..], view, q, maxResults, kept)
  {
  }

  lemma FilterCons<E>(s: seq<E>, f: E -> bool)
    requires s != []
    ensures Filter(s, f) == (if f(s[0]) then [s[0]] else []) + Filter(s[1..], f)
  {
  }

  /** Keeping `n` more after `found`, the first being `e`. */
  lemma TakeCons<E>(found: seq<E>, e: E, rest: seq<E>, n: int)
    requires n >= 1
    ensures n == 1 ==> found + Take([e] + rest, n) == found + [e]
    ensures found + Take([e] + rest, n) == (found + [e]) + Take(rest, n - 1)
  {
    assert Take([e] + rest, n) == [e] + Take(rest, n - 1);
  }

  /** The search never returns more than `Limit(maxResults)` entries, every
    * one of them a hit among the entries searched. */
  lemma SearchBound<E>(entries: seq<E>, view: E -> Option<View>, query: string, maxResults: int)
    requires Search(entries, view, query, maxResults).Ok?
    ensures var found := Search(entries, view, query, maxResults).value;
      var q := Lower(Validation.ValidateQuery(query, MaxQueryLength).value);
      |found| <= Limit(maxResults) && forall e :: e in found ==> e in entries && Hit(view, q, e)
  {
    var q := Lower(Validation.ValidateQuery(query, MaxQueryLength).value);
    ScanBound(entries, view, q, maxResults, [], []);
  }

  lemma {:induction false} ScanBound<E>(entries: seq<E>, view: E -> Option<View>, q: string, maxResults: int, found: seq<E>, seen: seq<E>)
    requires Scan(entries, view, q, maxResults, found).Some?
    requires |found| < Limit(maxResults)
    requires forall e :: e in found ==> e in seen + entries && Hit(view, q, e)
    ensures var r := Scan(entries, view, q, maxResults, found).value;
      |r| <= Limit(maxResults) && forall e :: e in r ==> e in seen + entries && Hit(view, q, e)
  {
    if entries != [] {
      var e := entries[0];
      assert seen + entries == (seen + [e]) + entries[1..];
      var v := view(e).value;
      if Matches(v, q) {
        var kept := found + [e];
        if |kept| < maxResults {
          ScanBound(entries[1..], view, q, maxResults, kept, seen + [e]);
        }
      } else {
        ScanBound(entries[1..], view, q, maxResults, found, seen + [e]);
      }
    }
  }
}
