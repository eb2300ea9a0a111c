// Keyword matching of natural-language text against the registry's bundles:
// text normalisation, scoring, the deterministic ranking and the confidence
// of the best match.
module Matcher {
  import opened Wrappers
  import opened Seqs
  import opened Dicts
  import opened PyStr
  import opened Sorting
  import opened BundleRegistry

  // ---------------------------------------------------------------------------
  // `_normalize`

  /** `" ".join(text.lower().strip().split())` */
  function Normalize(text: string): (r: string)
    ensures forall i :: 0 <= i < |r| ==> LowerChar(r[i]) == r[i]
    ensures r == [] || (!IsSpace(r[0]) && !IsSpace(r[|r| - 1]))
  {
    var ws := SplitWs(Lower(Strip(text)));
    LoweredWords(Strip(text));
    JoinChars(ws);
    JoinEdges(ws);
    Join(ws, " ")
  }

  /** A word of normalised text: non-empty, without whitespace, lower case. */
  predicate Word(w: string)
  {
    w != [] && forall i :: 0 <= i < |w| ==> !IsSpace(w[i]) && LowerChar(w[i]) == w[i]
  }

  predicate AllWords(ws: seq<string>)
  {
    forall w :: w in ws ==> Word(w)
  }

  lemma LoweredWords(s: string)
    ensures AllWords(SplitWs(Lower(s)))
  {
    var l := Lower(s);
    SplitWsChars(l);
    assert forall c :: c in l ==> LowerChar(c) == c by {
      forall c | c in l ensures LowerChar(c) == c {
        var k :| 0 <= k < |l| && l[k] == c;
      }
    }
  }

  /** Lower case, and no whitespace other than the space. */
  predicate NormalChars(s: string)
  {
    forall i :: 0 <= i < |s| ==> LowerChar(s[i]) == s[i] && (s[i] == ' ' || !IsSpace(s[i]))
  }

  /** Every character of the joined words is a word character or the space. */
  lemma {:induction false} JoinChars(ws: seq<string>)
    requires AllWords(ws)
    ensures NormalChars(Join(ws, " "))
  {
    if |ws| > 1 {
      JoinChars(ws[1..]);
      var rest := Join(ws[1..], " ");
      var j := Join(ws, " ");
      var w := ws[0];
      assert w in ws;
      assert j == w + (" " + rest);
      forall i | 0 <= i < |j| ensures LowerChar(j[i]) == j[i] && (j[i] == ' ' || !IsSpace(j[i])) {
        if i < |w| {
          assert j[i] == w[i];
        } else if i == |w| {
          assert j[i] == ' ';
        } else {
          var k := i - |w| - 1;
          assert j[i] == rest[k];
          assert LowerChar(rest[k]) == rest[k] && (rest[k] == ' ' || !IsSpace(rest[k]));
        }
      }
    } else if |ws| == 1 {
      assert ws[0] in ws;
    }
  }

  lemma JoinEdges(ws: seq<string>)
    requires AllWords(ws)
    ensures var j := Join(ws, " "); j == [] || (!IsSpace(j[0]) && !IsSpace(j[|j| - 1]))
  {
    if ws != [] {
      var j := Join(ws, " ");
      assert ws[0] in ws && ws[|ws| - 1] in ws;
      JoinLast(ws, " ");
      var last := ws[|ws| - 1];
      assert j[|j| - 1] == last[|last| - 1];
      if |ws| > 1 {
        assert j == ws[0] + " " + Join(ws[1..], " ");
      }
      assert j[0] == ws[0][0];
    }
  }

  lemma {:induction false} WordPrefixAll(w: string)
    requires NoSpace(w)
    ensures WordPrefix(w) == w
  {
    if w != [] {
      WordPrefixAll(w[1..]);
    }
  }

  lemma {:induction false} WordPrefixStop(w: string, rest: string)
    requires NoSpace(w) && rest != [] && IsSpace(rest[0])
    ensures WordPrefix(w + rest) == w
  {
    if w != [] {
      assert (w + rest)[1..] == w[1..] + rest;
      WordPrefixStop(w[1..], rest);
    } else {
      assert w + rest == rest;
    }
  }

  /** Splitting joined words gives the words back. */
  lemma {:induction false} SplitJoinWords(ws: seq<string>)
    requires AllWords(ws)
    ensures SplitWs(Join(ws, " ")) == ws
  {
    if |ws| == 1 {
      assert ws[0] in ws;
      WordPrefixAll(ws[0]);
      assert ws[0][|ws[0]|..] == [];
    } else if |ws| > 1 {
      assert ws[0] in ws;
      var rest := Join(ws[1..], " ");
      AppendAssoc(ws[0], " ", rest);
      SplitWordThen(ws[0], rest);
      assert AllWords(ws[1..]) by {
        forall x | x in ws[1..] ensures Word(x) {
          assert x in ws;
        }
      }
      SplitJoinWords(ws[1..]);
      assert ws == [ws[0]] + ws[1..];
    }
  }

  /** A word followed by a space splits off as the first word. */
  lemma SplitWordThen(w: string, rest: string)
    requires Word(w)
    ensures SplitWs(w + (" " + rest)) == [w] + SplitWs(rest)
  {
    var s := w + (" " + rest);
    WordPrefixStop(w, " " + rest);
    assert s[|w|..] == " " + rest;
    assert (" " + rest)[1..] == rest;
    assert s[0] == w[0];
  }

  lemma LowerFixed(s: string)
    requires forall i :: 0 <= i < |s| ==> LowerChar(s[i]) == s[i]
    ensures Lower(s) == s
  {
  }

  /** Normalising twice is normalising once. */
  lemma NormalizeIdempotent(text: string)
    ensures Normalize(Normalize(text)) == Normalize(text)
  {
    var ws := SplitWs(Lower(Strip(text)));
    LoweredWords(Strip(text));
    var j := Join(ws, " ");
    JoinEdges(ws);
    JoinChars(ws);
    if j != [] {
      StripNoEdgeSpace(j);
    }
    LowerFixed(j);
    SplitJoinWords(ws);
  }

  // ---------------------------------------------------------------------------
  // `score_bundles` and `best_bundle`

  datatype MatchResult = MatchResult(bundleId: string, score: int, hits: seq<string>)

  /** A keyword hits when its normal form is non-empty and occurs in the text. */
  predicate Hit(t: string, kw: string)
  {
    var n := Normalize(kw); n != [] && Contains(t, n)
  }

  function HitFn(t: string): string -> bool
  {
    (kw: string) => Hit(t, kw)
  }

  predicate AnyIn(t: string, triggers: seq<string>)
  {
    exists x :: x in triggers && Contains(t, x)
  }

  const DocsTriggers := ["docs", "documentation", "readme", "openapi", "swagger"]
  const SecurityTriggers := ["security", "vulnerability", "cve", "owasp"]
  const DevopsTriggers := ["ci", "cd", "github actions", "kubernetes", "helm", "deploy"]
  const CodeTriggers := ["code", "function", "class", "refactor", "debug", "performance"]

  /** The domain rule: one point when a trigger word of the bundle's own
    * domain occurs in the text. */
  function DomainBonus(domain: string, t: string): (bonus: nat)
    ensures bonus <= 1
    ensures bonus == 1 <==>
      (domain == "docs" && AnyIn(t, DocsTriggers)) || (domain == "security" && AnyIn(t, SecurityTriggers))
      || (domain == "devops" && AnyIn(t, DevopsTriggers)) || (domain == "code" && AnyIn(t, CodeTriggers))
  {
    if domain == "docs" then (if AnyIn(t, DocsTriggers) then 1 else 0)
    else if domain == "security" then (if AnyIn(t, SecurityTriggers) then 1 else 0)
    else if domain == "devops" then (if AnyIn(t, DevopsTriggers) then 1 else 0)
    else if domain == "code" then (if AnyIn(t, CodeTriggers) then 1 else 0)
    else 0
  }

  /** A bundle's score against normalised text `t`. */
  function ScoreOf(t: string, b: Bundle): (m: MatchResult)
    ensures m.bundleId == b.id
    ensures 2 * |m.hits| <= m.score <= 2 * |m.hits| + 1
    ensures m.score == 2 * |m.hits| + DomainBonus(b.domain, t)
  {
    var hits := Filter(b.keywordsAny, HitFn(t));
    MatchResult(b.id, 2 * |hits| + DomainBonus(b.domain, t), hits)
  }

  /** The hits are the bundle's keywords that occur in the text, in the
    * bundle's order. */
  lemma ScoreOfHits(t: string, b: Bundle)
    ensures IsSubsequence(ScoreOf(t, b).hits, b.keywordsAny)
    ensures forall kw :: kw in ScoreOf(t, b).hits <==> kw in b.keywordsAny && Hit(t, kw)
  {
    FilterSubsequence(b.keywordsAny, HitFn(t));
  }

  function Values<V>(d: Dict<V>): (r: seq<V>)
    ensures |r| == |d| && forall i :: 0 <= i < |d| ==> r[i] == d[i].1
  {
    seq(|d|, i requires 0 <= i < |d| => d[i].1)
  }

  function Scored(t: string, bs: seq<Bundle>): (r: seq<MatchResult>)
    ensures |r| == |bs|
  {
    if bs == [] then [] else Scored(t, bs[..|bs| - 1]) + [ScoreOf(t, bs[|bs| - 1])]
  }

  lemma {:induction false} ScoredAt(t: string, bs: seq<Bundle>, i: nat)
    requires i < |bs|
    ensures Scored(t, bs)[i] == ScoreOf(t, bs[i])
  {
    if i < |bs| - 1 {
      assert bs[..|bs| - 1][i] == bs[i];
      ScoredAt(t, bs[..|bs| - 1], i);
    }
  }

  function Positive(): MatchResult -> bool
  {
    (m: MatchResult) => m.score > 0
  }

  /** The sort key `(-score, bundle_id)`: higher score first, then the smaller id. */
  predicate ResultLe(a: MatchResult, b: MatchResult)
  {
    a.score > b.score || (a.score == b.score && StrLe(a.bundleId, b.bundleId))
  }

  function ResultLeFn(): (MatchResult, MatchResult) -> bool
  {
    (a: MatchResult, b: MatchResult) => ResultLe(a, b)
  }

  lemma ResultLePreorder()
    ensures TotalPreorder(ResultLeFn())
  {
    forall a: MatchResult, b: MatchResult ensures ResultLe(a, b) || ResultLe(b, a) {
      if a.bundleId != b.bundleId { StrLtTotal(a.bundleId, b.bundleId); }
    }
    forall a: MatchResult, b: MatchResult, c: MatchResult | ResultLe(a, b) && ResultLe(b, c)
      ensures ResultLe(a, c)
    {
      if a.score == b.score == c.score && a.bundleId != b.bundleId && b.bundleId != c.bundleId {
        StrLtTrans(a.bundleId, b.bundleId, c.bundleId);
      }
    }
  }

  /** What `score_bundles` returns. */
  function Ranked(text: string, reg: Registry): seq<MatchResult>
  {
    Sort(Filter(Scored(Normalize(text), Values(reg.bundles)), Positive()), ResultLeFn())
  }

  /** `score_bundles`: the loops over bundles and keywords, then the sort. */
  method ScoreBundles(text: string, reg: Registry) returns (results: seq<MatchResult>)
    ensures results == Ranked(text, reg)
  {
    var t := Normalize(text);
    var bs := Values(reg.bundles);
    var found: seq<MatchResult> := [];
    var i := 0;
    while i < |bs|
      invariant 0 <= i <= |bs|
      invariant found == Filter(Scored(t, bs[..i]), Positive())
    {
      var m := ScoreBundle(t, bs[i]);
      FoundSnoc(t, bs, i);
      if m.score > 0 {
        found := found + [m];
      }
      i := i + 1;
    }
    assert bs[..i] == bs;
    results := Sort(found, ResultLeFn());
  }

  lemma FoundSnoc(t: string, bs: seq<Bundle>, i: nat)
    requires i < |bs|
    ensures Filter(Scored(t, bs[..i + 1]), Positive())
            == Filter(Scored(t, bs[..i]), Positive()) + (if ScoreOf(t, bs[i]).score > 0 then [ScoreOf(t, bs[i])] else [])
  {
    ScoredSnoc(t, bs, i);
    FilterAppend(Scored(t, bs[..i]), [ScoreOf(t, bs[i])], Positive());
  }

  lemma FilterSnoc<T>(s: seq<T>, j: nat, f: T -> bool)
    requires j < |s|
    ensures Filter(s[..j + 1], f) == Filter(s[..j], f) + (if f(s[j]) then [s[j]] else [])
  {
    assert s[..j + 1] == s[..j] + [s[j]];
    FilterAppend(s[..j], [s[j]], f);
  }

  lemma ScoredSnoc(t: string, bs: seq<Bundle>, i: nat)
    requires i < |bs|
    ensures Scored(t, bs[..i + 1]) == Scored(t, bs[..i]) + [ScoreOf(t, bs[i])]
  {
    assert bs[..i + 1][..i] == bs[..i];
  }

  /** The body of the loop over bundles: the keyword hits, then the domain rule. */
  method ScoreBundle(t: string, b: Bundle) returns (m: MatchResult)
    ensures m == ScoreOf(t, b)
  {
    var score := 0;
    var hits: seq<string> := [];
    var j := 0;
    while j < |b.keywordsAny|
      invariant 0 <= j <= |b.keywordsAny|
      invariant hits == Filter(b.keywordsAny[..j], HitFn(t))
      invariant score == 2 * |hits|
    {
      var kw := b.keywordsAny[j];
      var nkw := Normalize(kw);
      FilterSnoc(b.keywordsAny, j, HitFn(t));
      if nkw != [] && Contains(t, nkw) {
        score := score + 2;
        hits := hits + [kw];
      }
      j := j + 1;
    }
    assert b.keywordsAny[..j] == b.keywordsAny;
    if b.domain == "docs" && AnyIn(t, DocsTriggers) { score := score + 1; }
    if b.domain == "security" && AnyIn(t, SecurityTriggers) { score := score + 1; }
    if b.domain == "devops" && AnyIn(t, DevopsTriggers) { score := score + 1; }
    if b.domain == "code" && AnyIn(t, CodeTriggers) { score := score + 1; }
    m := MatchResult(b.id, score, hits);
  }

  /** `m` is the score of one of the bundles against normalised text `t`. */
  ghost predicate ScoreOfSome(t: string, bundles: Dict<Bundle>, m: MatchResult)
  {
    exists i :: 0 <= i < |bundles| && m == ScoreOf(t, bundles[i].1)
  }

  lemma ScoredMembers(t: string, bundles: Dict<Bundle>)
    ensures forall m :: m in Scored(t, Values(bundles)) <==> ScoreOfSome(t, bundles, m)
  {
    var scored := Scored(t, Values(bundles));
    forall m ensures m in scored <==> ScoreOfSome(t, bundles, m) {
      if m in scored {
        var i :| 0 <= i < |scored| && scored[i] == m;
        ScoredAt(t, Values(bundles), i);
      }
      if ScoreOfSome(t, bundles, m) {
        var i :| 0 <= i < |bundles| && m == ScoreOf(t, bundles[i].1);
        ScoredAt(t, Values(bundles), i);
        assert scored[i] == m;
      }
    }
  }

  /** The ranking holds exactly the bundles that scored, best first: higher
    * score, then the smaller id. */
  lemma RankedProperties(text: string, reg: Registry)
    ensures Sorted(Ranked(text, reg), ResultLeFn())
    ensures forall m :: m in Ranked(text, reg) <==> m.score > 0 && ScoreOfSome(Normalize(text), reg.bundles, m)
  {
    ResultLePreorder();
    var t := Normalize(text);
    var found := Filter(Scored(t, Values(reg.bundles)), Positive());
    SortSorted(found, ResultLeFn());
    ScoredMembers(t, reg.bundles);
    forall m ensures m in Ranked(text, reg) <==> m in found {
      assert m in multiset(Ranked(text, reg)) <==> m in multiset(found);
    }
  }

  /** Every ranked result has a positive score of two per hit plus at most one. */
  lemma RankedScores(text: string, reg: Registry)
    ensures forall m :: m in Ranked(text, reg) ==> 0 < m.score && 2 * |m.hits| <= m.score <= 2 * |m.hits| + 1
  {
    RankedProperties(text, reg);
    forall m | m in Ranked(text, reg) ensures 2 * |m.hits| <= m.score <= 2 * |m.hits| + 1 {
      var i :| 0 <= i < |reg.bundles| && m == ScoreOf(Normalize(text), reg.bundles[i].1);
    }
  }

  /** Where the ranking is sorted, its head has the highest score. */
  lemma HeadIsBest(rs: seq<MatchResult>)
    requires rs != [] && Sorted(rs, ResultLeFn())
    ensures forall m :: m in rs ==> m.score <= rs[0].score
    ensures forall m :: m in rs && m.score == rs[0].score ==> StrLe(rs[0].bundleId, m.bundleId)
  {
    forall m | m in rs ensures m.score <= rs[0].score && (m.score == rs[0].score ==> StrLe(rs[0].bundleId, m.bundleId)) {
      var k :| 0 <= k < |rs| && rs[k] == m;
      if k > 0 { assert ResultLe(rs[0], rs[k]); }
    }
  }

  /** `max(0, top - penalty)`, the penalty 1 when the runner-up is within one
    * point of the top. */
  function RawScore(rs: seq<MatchResult>): nat
    requires rs != []
  {
    var penalty := if |rs| > 1 && rs[0].score - rs[1].score <= 1 then 1 else 0;
    if rs[0].score - penalty > 0 then rs[0].score - penalty else 0
  }

  /** `min(1.0, raw / 7.0)`. */
  function Sevenths(raw: nat): (c: real)
    ensures 0.0 <= c <= 1.0
    ensures c == 1.0 <==> raw >= 7
  {
    var c := raw as real / 7.0;
    if c < 1.0 then c else 1.0
  }

  /** A confidence of at least 0.65 takes a raw score of five or more, and is
    * then five or six sevenths, or capped at one. */
  lemma SeventhsAtLeast(raw: nat)
    requires Sevenths(raw) >= 0.65
    ensures raw >= 5
    ensures Sevenths(raw) in {5.0 / 7.0, 6.0 / 7.0, 1.0}
  {
  }

  /** `min(1.0, max(0, top - penalty) / 7.0)`. */
  function Confidence(rs: seq<MatchResult>): (c: real)
    requires rs != []
    ensures 0.0 <= c <= 1.0
  {
    Sevenths(RawScore(rs))
  }

  /** `best_bundle`: the top of the ranking and its confidence; `(None, 0.0)`
    * when no bundle scored. */
  function BestBundle(text: string, reg: Registry): (r: (Option<MatchResult>, real))
    ensures r.0.None? <==> Ranked(text, reg) == []
    ensures r.0.None? ==> r.1 == 0.0
    ensures 0.0 <= r.1 <= 1.0
    ensures r.0.Some? ==> r.0.value in Ranked(text, reg)
    ensures r.0.Some? ==> forall m :: m in Ranked(text, reg) ==> m.score <= r.0.value.score
    ensures r.0.Some? ==> r.0.value == Ranked(text, reg)[0]
    ensures r.0.Some? ==> forall m :: m in Ranked(text, reg) && m.score == r.0.value.score ==> StrLe(r.0.value.bundleId, m.bundleId)
  {
    var rs := Ranked(text, reg);
    if rs == [] then (None, 0.0)
    else
      RankedProperties(text, reg);
      HeadIsBest(rs);
      (Some(rs[0]), Confidence(rs))
  }

  /** Confidence of at least 0.65 needs a top score of five: so an accepted
    * match has at least two keyword hits. */
  lemma AcceptedHasTwoHits(text: string, reg: Registry)
    requires BestBundle(text, reg).0.Some? && BestBundle(text, reg).1 >= 0.65
    ensures BestBundle(text, reg).0.value.score >= 5
    ensures |BestBundle(text, reg).0.value.hits| >= 2
  {
    RankedScores(text, reg);
    assert Ranked(text, reg)[0] in Ranked(text, reg);
  }

  /** The ambiguity penalty: a runner-up within one point costs one point of
    * the top score. */
  lemma AmbiguityPenalty(text: string, reg: Registry)
    requires |Ranked(text, reg)| > 1
    ensures var rs := Ranked(text, reg);
      rs[0].score - rs[1].score <= 1 ==> BestBundle(text, reg).1 == (if rs[0].score - 1 < 7 then (rs[0].score - 1) as real / 7.0 else 1.0)
    ensures var rs := Ranked(text, reg);
      rs[0].score - rs[1].score > 1 ==> BestBundle(text, reg).1 == (if rs[0].score < 7 then rs[0].score as real / 7.0 else 1.0)
  {
    var rs := Ranked(text, reg);
    RankedProperties(text, reg);
    assert rs[0] in rs && rs[1] in rs;
  }
}
