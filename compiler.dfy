// Rendering the canonical CompText DSL: the profile chosen for an audience,
// then one `use:` line per bundle.
module Canonicalize {
  import opened Wrappers
  import opened PyStr
  import opened Sorting
  import opened BundleRegistry

  /** `pick_profile_id`: the audience, lower-cased and stripped (empty means
    * "dev"), selects the audit or exec profile, and anything else the dev
    * profile. */
  function PickProfileId(audience: string): (id: string)
    ensures id in RequiredProfiles
    ensures id == AuditProfile <==> Lower(Strip(audience)) == "audit"
    ensures id == ExecProfile <==> Lower(Strip(audience)) == "exec"
  {
    var a := Lower(Strip(if audience == "" then "dev" else audience));
    if a == "audit" then AuditProfile
    else if a == "exec" then ExecProfile
    else DevProfile
  }

  /** The text after every bundle id: the deltas, sorted and space-separated,
    * when there are any. */
  function DeltaSuffix(deltas: Option<seq<string>>): string
  {
    if deltas.Some? && deltas.value != [] then " " + Join(SortStrings(deltas.value), " ") else ""
  }

  /** The lines `render_dsl` collects. */
  function DslLines(profileId: string, bundleIds: seq<string>, deltas: Option<seq<string>>): (lines: seq<string>)
  {
    ["use:" + profileId] + seq(|bundleIds|, i requires 0 <= i < |bundleIds| => "use:" + bundleIds[i] + DeltaSuffix(deltas))
  }

  /** `render_dsl` */
  function Dsl(profileId: string, bundleIds: seq<string>, deltas: Option<seq<string>>): string
  {
    Join(DslLines(profileId, bundleIds, deltas), "\n")
  }

  /** `render_dsl`'s loop over the bundle ids. */
  method RenderDsl(profileId: string, bundleIds: seq<string>, deltas: Option<seq<string>>) returns (dsl: string)
    ensures dsl == Dsl(profileId, bundleIds, deltas)
  {
    var lines := ["use:" + profileId];
    var i := 0;
    while i < |bundleIds|
      invariant 0 <= i <= |bundleIds|
      invariant lines == DslLines(profileId, bundleIds[..i], deltas)
    {
      var line := "use:" + bundleIds[i];
      if deltas.Some? && deltas.value != [] {
        line := line + " " + Join(SortStrings(deltas.value), " ");
      }
      assert line == "use:" + bundleIds[i] + DeltaSuffix(deltas);
      DslLinesSnoc(profileId, bundleIds, deltas, i);
      lines := lines + [line];
      i := i + 1;
    }
    assert bundleIds[..i] == bundleIds;
    dsl := Join(lines, "\n");
  }

  lemma DslLinesSnoc(profileId: string, bundleIds: seq<string>, deltas: Option<seq<string>>, i: nat)
    requires i < |bundleIds|
    ensures DslLines(profileId, bundleIds[..i + 1], deltas)
      == DslLines(profileId, bundleIds[..i], deltas) + ["use:" + bundleIds[i] + DeltaSuffix(deltas)]
  {
  }

  /** With one bundle and no deltas, the DSL is two lines. */
  lemma DslOneBundle(profileId: string, bundleId: string)
    ensures Dsl(profileId, [bundleId], None) == "use:" + profileId + "\n" + "use:" + bundleId
  {
    var lines := DslLines(profileId, [bundleId], None);
    assert DeltaSuffix(None) == "";
    assert |lines| == 2 && lines[0] == "use:" + profileId;
    assert lines[1] == "use:" + bundleId + "";
    assert Join(lines, "\n") == lines[0] + "\n" + Join(lines[1..], "\n");
  }

  predicate NoNewline(s: string)
  {
    '\n' !in s
  }

  lemma JoinNoNewline(parts: seq<string>, sep: string)
    requires NoNewline(sep) && forall p :: p in parts ==> NoNewline(p)
    ensures NoNewline(Join(parts, sep))
  {
    if |parts| > 1 {
      JoinNoNewline(parts[1..], sep);
      assert parts[0] in parts;
    }
  }

  /** Read back line by line, the DSL is the profile line, then one line per
    * bundle in the given order, each ending with the sorted deltas. */
  lemma RenderDslLines(profileId: string, bundleIds: seq<string>, deltas: Option<seq<string>>)
    requires NoNewline(profileId) && forall b :: b in bundleIds ==> NoNewline(b)
    requires deltas.Some? ==> forall d :: d in deltas.value ==> NoNewline(d)
    ensures |Split(Dsl(profileId, bundleIds, deltas), '\n')| == |bundleIds| + 1
    ensures Split(Dsl(profileId, bundleIds, deltas), '\n')[0] == "use:" + profileId
    ensures forall i :: 0 <= i < |bundleIds| ==>
      Split(Dsl(profileId, bundleIds, deltas), '\n')[i + 1] == "use:" + bundleIds[i] + DeltaSuffix(deltas)
  {
    var lines := DslLines(profileId, bundleIds, deltas);
    if deltas.Some? && deltas.value != [] {
      var sorted := SortStrings(deltas.value);
      assert forall d :: d in sorted ==> d in multiset(deltas.value);
      JoinNoNewline(sorted, " ");
    }
    assert NoNewline(DeltaSuffix(deltas));
    assert NoNewline("use:");
    forall p | p in lines ensures '\n' !in p {
      var k :| 0 <= k < |lines| && lines[k] == p;
      if k > 0 {
        assert bundleIds[k - 1] in bundleIds;
        assert p == "use:" + bundleIds[k - 1] + DeltaSuffix(deltas);
      }
    }
    SplitJoinInverse(lines, '\n');
  }

  /** The order in which the deltas are given does not change the DSL. */
  lemma DeltaOrderIrrelevant(profileId: string, bundleIds: seq<string>, d1: seq<string>, d2: seq<string>)
    requires multiset(d1) == multiset(d2)
    ensures Dsl(profileId, bundleIds, Some(d1)) == Dsl(profileId, bundleIds, Some(d2))
  {
    SortStringsCanonical(d1, d2);
    assert d1 == [] <==> d2 == [] by {
      assert |d1| == |multiset(d1)| == |multiset(d2)| == |d2|;
    }
    assert DeltaSuffix(Some(d1)) == DeltaSuffix(Some(d2));
  }
}

// `compile_nl_to_comptext`: natural language to the canonical DSL, or a
// clarifying question when the match is not confident.
module NlCompiler {
  import opened Wrappers
  import opened Dicts
  import opened PyStr
  import opened BundleRegistry
  import opened Matcher
  import opened Canonicalize

  const Question := "Meinst du Code-Review, Performance-Optimierung, Debugging, Security-Scan oder Dokumentation? Bitte wähle eines."
  const GuardrailError := "Internal error: selected bundle not found in registry"
  /** Below this confidence the compiler asks instead of guessing. */
  const Threshold := 0.65

  /** `f"{c:.2f}"` for a non-negative value, rounding half up. */
  function Fixed2(c: real): (s: string)
    requires 0.0 <= c
  {
    var n := (c * 100.0 + 0.5).Floor;
    NatToStr(n / 100) + "." + [DigitChar(n % 100 / 10), DigitChar(n % 10)]
  }

  function Explanation(m: MatchResult): string
  {
    "Matched bundle '" + m.bundleId + "' via keywords: " + (if m.hits != [] then Join(m.hits, ", ") else "n/a")
  }

  /** The clarification answer, with an empty DSL. */
  function Clarify(returnMode: string, c: real): string
    requires 0.0 <= c
  {
    if returnMode == "dsl_only" then Question
    else "dsl:\n\nconfidence: " + Fixed2(c) + "\nclarification: " + Question
  }

  /** `compile_nl_to_comptext` over a loaded registry; `Err` is the guardrail's
    * exception. `mode` is accepted and, as in the source, not consulted. */
  function Compile(text: string, audience: string, mode: string, returnMode: string, reg: Registry): (r: Result<string, string>)
    ensures r.Err? ==> r.error == GuardrailError
  {
    var profileId := PickProfileId(audience);
    var best := BestBundle(text, reg);
    if best.0.None? || best.1 < Threshold then Ok(Clarify(returnMode, best.1))
    else if !HasKey(reg.bundles, best.0.value.bundleId) then Err(GuardrailError)
    else
      Ok(Answer(returnMode, Dsl(profileId, [best.0.value.bundleId], None), best.1, best.0.value))
  }

  /** The answer for an accepted match `m` with confidence `c`. */
  function Answer(returnMode: string, dsl: string, c: real, m: MatchResult): string
    requires 0.0 <= c
  {
    if returnMode == "dsl_only" then dsl
    else if returnMode == "dsl_plus_explanation" then
      "dsl:\n" + dsl + "\n\nconfidence: " + Fixed2(c) + "\nclarification: null\nexplanation: " + Explanation(m)
    else "dsl:\n" + dsl + "\n\nconfidence: " + Fixed2(c) + "\nclarification: null"
  }

  /** On an accepted match of a bundle the registry holds, the answer. */
  lemma CompileAccepted(text: string, audience: string, mode: string, returnMode: string, reg: Registry)
    requires Accepted(text, reg) && WellKeyed(reg)
    ensures Compile(text, audience, mode, returnMode, reg)
      == Ok(Answer(returnMode, Dsl(PickProfileId(audience), [BestBundle(text, reg).0.value.bundleId], None),
                   BestBundle(text, reg).1, BestBundle(text, reg).0.value))
  {
    MatchIsKey(text, reg);
  }

  /** The whole call: load the registry from its decoded records, then compile;
    * a loading error propagates. */
  function CompileFrom(text: string, audience: string, mode: string, returnMode: string,
                       profiles: seq<ProfileRecord>, bundles: seq<BundleRecord>): (r: Result<string, string>)
    ensures Load(profiles, bundles).Err? ==> r == Err(Load(profiles, bundles).error)
  {
    match Load(profiles, bundles)
    case Err(e) => Err(e)
    case Ok(reg) => Compile(text, audience, mode, returnMode, reg)
  }

  /** The compiler accepts a match: one exists and its confidence reaches the threshold. */
  predicate Accepted(text: string, reg: Registry)
  {
    var best := BestBundle(text, reg); best.0.Some? && best.1 >= Threshold
  }

  /** A matched bundle is always a bundle of the registry it was scored against. */
  lemma MatchIsKey(text: string, reg: Registry)
    requires WellKeyed(reg) && BestBundle(text, reg).0.Some?
    ensures HasKey(reg.bundles, BestBundle(text, reg).0.value.bundleId)
  {
    RankedProperties(text, reg);
    var m := BestBundle(text, reg).0.value;
    var i :| 0 <= i < |reg.bundles| && m == ScoreOf(Normalize(text), reg.bundles[i].1);
    assert reg.bundles[i].0 == m.bundleId;
  }

  /** The guardrail never fires on a loaded registry: the whole call fails
    * exactly when loading the registry fails. */
  lemma GuardrailUnreachable(text: string, audience: string, mode: string, returnMode: string,
                             profiles: seq<ProfileRecord>, bundles: seq<BundleRecord>)
    ensures CompileFrom(text, audience, mode, returnMode, profiles, bundles).Err? <==> Load(profiles, bundles).Err?
  {
    if Load(profiles, bundles).Ok? {
      var reg := Load(profiles, bundles).value;
      LoadWellKeyed(profiles, bundles);
      if BestBundle(text, reg).0.Some? {
        MatchIsKey(text, reg);
      }
    }
  }

  /** No invented ids: on a loaded registry, an accepted `dsl_only` answer is
    * exactly the two `use:` lines of a loaded profile and a loaded bundle. */
  lemma AcceptedUsesLoadedIds(text: string, audience: string, mode: string,
                              profiles: seq<ProfileRecord>, bundles: seq<BundleRecord>, reg: Registry, m: MatchResult)
    requires Load(profiles, bundles) == Ok(reg) && Accepted(text, reg) && BestBundle(text, reg).0 == Some(m)
    ensures CompileFrom(text, audience, mode, "dsl_only", profiles, bundles)
      == Ok("use:" + PickProfileId(audience) + "\n" + "use:" + m.bundleId)
    ensures HasKey(reg.profiles, PickProfileId(audience)) && HasKey(reg.bundles, m.bundleId)
  {
    LoadWellKeyed(profiles, bundles);
    MatchIsKey(text, reg);
    LoadProfiles(profiles, bundles);
    var p := PickProfileId(audience);
    assert CompileFrom(text, audience, mode, "dsl_only", profiles, bundles) == Compile(text, audience, mode, "dsl_only", reg);
    CompileAccepted(text, audience, mode, "dsl_only", reg);
    assert Compile(text, audience, mode, "dsl_only", reg) == Ok(Dsl(p, [m.bundleId], None));
    DslOneBundle(p, m.bundleId);
  }

  /** A loaded registry holds the three required profiles. */
  lemma LoadProfiles(profiles: seq<ProfileRecord>, bundles: seq<BundleRecord>)
    requires Load(profiles, bundles).Ok?
    ensures forall id :: id in RequiredProfiles ==> HasKey(Load(profiles, bundles).value.profiles, id)
  {
    var ps := ProfilesOf(profiles).value;
    forall id | id in RequiredProfiles ensures HasKey(ps, id) {
      assert id !in MissingProfiles(ps);
    }
  }

  /** Without an accepted match the answer is the clarifying question, and no
    * DSL line is emitted. */
  lemma LowConfidenceAsks(text: string, audience: string, mode: string, returnMode: string, reg: Registry)
    requires !Accepted(text, reg)
    ensures Compile(text, audience, mode, returnMode, reg) == Ok(Clarify(returnMode, BestBundle(text, reg).1))
    ensures returnMode == "dsl_only" ==> Compile(text, audience, mode, returnMode, reg) == Ok(Question)
  {
  }

  /** `mode` does not change the answer. */
  lemma ModeIgnored(text: string, audience: string, m1: string, m2: string, returnMode: string, reg: Registry)
    ensures Compile(text, audience, m1, returnMode, reg) == Compile(text, audience, m2, returnMode, reg)
  {
  }

  /** Any return mode other than `dsl_only` and `dsl_plus_explanation` answers
    * as `dsl_plus_confidence`. */
  lemma OtherModesAnswerWithConfidence(text: string, audience: string, mode: string, returnMode: string, reg: Registry)
    requires returnMode != "dsl_only" && returnMode != "dsl_plus_explanation"
    ensures Compile(text, audience, mode, returnMode, reg) == Compile(text, audience, mode, "dsl_plus_confidence", reg)
  {
  }

  /** The explanation answer is the confidence answer with one more line. */
  lemma ExplanationExtends(text: string, audience: string, mode: string, reg: Registry, m: MatchResult, c: real)
    requires WellKeyed(reg) && BestBundle(text, reg) == (Some(m), c) && c >= Threshold
    ensures Compile(text, audience, mode, "dsl_plus_explanation", reg).Ok?
    ensures Compile(text, audience, mode, "dsl_plus_explanation", reg).value
      == Compile(text, audience, mode, "dsl_plus_confidence", reg).value + "\nexplanation: " + Explanation(m)
  {
    CompileAccepted(text, audience, mode, "dsl_plus_confidence", reg);
    CompileAccepted(text, audience, mode, "dsl_plus_explanation", reg);
    AnswerExtends(Dsl(PickProfileId(audience), [m.bundleId], None), c, m);
  }

  lemma AnswerExtends(dsl: string, c: real, m: MatchResult)
    requires 0.0 <= c
    ensures Answer("dsl_plus_explanation", dsl, c, m) == Answer("dsl_plus_confidence", dsl, c, m) + "\nexplanation: " + Explanation(m)
  {
  }

  /** An accepted confidence is five or six sevenths, or capped at one. */
  lemma AcceptedConfidence(text: string, reg: Registry)
    requires Accepted(text, reg)
    ensures BestBundle(text, reg).1 in {5.0 / 7.0, 6.0 / 7.0, 1.0}
  {
    var rs := Ranked(text, reg);
    assert BestBundle(text, reg).1 == Confidence(rs);
    SeventhsAtLeast(RawScore(rs));
  }

  /** So the printed confidence of an accepted match is one of three values. */
  lemma AcceptedConfidenceText(text: string, reg: Registry)
    requires Accepted(text, reg)
    ensures Fixed2(BestBundle(text, reg).1) in ["0.71", "0.86", "1.00"]
  {
    AcceptedConfidence(text, reg);
    PrintedSevenths();
  }

  lemma PrintedSevenths()
    ensures Fixed2(5.0 / 7.0) == "0.71" && Fixed2(6.0 / 7.0) == "0.86" && Fixed2(1.0) == "1.00"
  {
    assert (5.0 / 7.0 * 100.0 + 0.5).Floor == 71;
    assert (6.0 / 7.0 * 100.0 + 0.5).Floor == 86;
    assert (1.0 * 100.0 + 0.5).Floor == 100;
    assert NatToStr(0) == "0" && NatToStr(1) == "1";
  }
}
