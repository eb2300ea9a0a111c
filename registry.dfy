// The bundle registry of the NL-to-CompText compiler: profiles and bundles
// built from already-decoded registry records, keyed by id, with the
// required-profile guardrail.
module BundleRegistry {
  import opened Wrappers
  import opened Seqs
  import opened Dicts
  import opened PyStr

  datatype Profile = Profile(id: string, name: string, expansion: seq<string>)

  datatype Bundle = Bundle(id: string, domain: string, task: string, keywordsAny: seq<string>, expansion: seq<string>)

  datatype Registry = Registry(profiles: Dict<Profile>, bundles: Dict<Bundle>)

  /** A decoded profile entry; `None` stands for an absent key. */
  datatype ProfileRecord = ProfileRecord(id: Option<string>, name: Option<string>, expansion: Option<seq<string>>)

  /** A bundle's `match` entry; `None` for an absent or null `keywords_any`. */
  datatype MatchRecord = MatchRecord(keywordsAny: Option<seq<string>>)

  /** A decoded bundle entry; a `matchRule` of `None` is an absent or null `match`. */
  datatype BundleRecord = BundleRecord(
    id: Option<string>,
    domain: Option<string>,
    task: Option<string>,
    matchRule: Option<MatchRecord>,
    expansion: Option<seq<string>>)

  const MissingId := "KeyError: 'id'"
  const AuditProfile := "profile.audit.v1"
  const DevProfile := "profile.dev.v1"
  const ExecProfile := "profile.exec.v1"

  /** The required profile ids, in the order `sorted` gives them. */
  const RequiredProfiles := [AuditProfile, DevProfile, ExecProfile]

  function ProfileOf(r: ProfileRecord): Profile
    requires r.id.Some?
  {
    Profile(r.id.value, r.name.GetOr(r.id.value), r.expansion.GetOr([]))
  }

  function KeywordsOf(r: BundleRecord): seq<string>
  {
    match r.matchRule
    case None => []
    case Some(m) => m.keywordsAny.GetOr([])
  }

  function BundleOf(r: BundleRecord): Bundle
    requires r.id.Some?
  {
    Bundle(r.id.value, r.domain.GetOr(""), r.task.GetOr(""), KeywordsOf(r), r.expansion.GetOr([]))
  }

  /** The profiles dictionary after assigning every record in turn. */
  function ProfilesOf(recs: seq<ProfileRecord>): Result<Dict<Profile>, string>
  {
    if recs == [] then Ok([])
    else match ProfilesOf(recs[..|recs| - 1])
      case Err(e) => Err(e)
      case Ok(d) =>
        var r := recs[|recs| - 1];
        if r.id.None? then Err(MissingId) else Ok(Put(d, r.id.value, ProfileOf(r)))
  }

  /** The bundles dictionary after assigning every record in turn. */
  function BundlesOf(recs: seq<BundleRecord>): Result<Dict<Bundle>, string>
  {
    if recs == [] then Ok([])
    else match BundlesOf(recs[..|recs| - 1])
      case Err(e) => Err(e)
      case Ok(d) =>
        var r := recs[|recs| - 1];
        if r.id.None? then Err(MissingId) else Ok(Put(d, r.id.value, BundleOf(r)))
  }

  function Quoted(s: string): string
  {
    "'" + s + "'"
  }

  /** `repr` of a list of strings without quotes inside them. */
  function ListRepr(ss: seq<string>): string
  {
    "[" + Join(seq(|ss|, i requires 0 <= i < |ss| => Quoted(ss[i])), ", ") + "]"
  }

  function MissingProfiles(profiles: Dict<Profile>): (r: seq<string>)
    ensures forall id :: id in r <==> id in RequiredProfiles && !HasKey(profiles, id)
  {
    Filter(RequiredProfiles, (id: string) => !HasKey(profiles, id))
  }

  /** `load_registry` after the YAML document was read and decoded. */
  function Load(profiles: seq<ProfileRecord>, bundles: seq<BundleRecord>): Result<Registry, string>
  {
    match ProfilesOf(profiles)
    case Err(e) => Err(e)
    case Ok(ps) =>
      match BundlesOf(bundles)
      case Err(e) => Err(e)
      case Ok(bs) =>
        var missing := MissingProfiles(ps);
        if missing != [] then Err("Missing required profiles in registry: " + ListRepr(missing))
        else Ok(Registry(ps, bs))
  }

  /** `load_registry`'s two loops over the decoded records. */
  method LoadRegistry(profiles: seq<ProfileRecord>, bundles: seq<BundleRecord>) returns (r: Result<Registry, string>)
    ensures r == Load(profiles, bundles)
  {
    var ps: Dict<Profile> := [];
    var i := 0;
    while i < |profiles|
      invariant 0 <= i <= |profiles|
      invariant ProfilesOf(profiles[..i]) == Ok(ps)
    {
      assert profiles[..i + 1][..i] == profiles[..i];
      var p := profiles[i];
      if p.id.None? {
        ProfilesErrSticks(profiles, i + 1);
        assert profiles[..|profiles|] == profiles;
        return Err(MissingId);
      }
      ps := Put(ps, p.id.value, ProfileOf(p));
      i := i + 1;
    }
    assert profiles[..i] == profiles;
    var bs: Dict<Bundle> := [];
    var j := 0;
    while j < |bundles|
      invariant 0 <= j <= |bundles|
      invariant BundlesOf(bundles[..j]) == Ok(bs)
    {
      assert bundles[..j + 1][..j] == bundles[..j];
      var b := bundles[j];
      if b.id.None? {
        BundlesErrSticks(bundles, j + 1);
        assert bundles[..|bundles|] == bundles;
        return Err(MissingId);
      }
      bs := Put(bs, b.id.value, BundleOf(b));
      j := j + 1;
    }
    assert bundles[..j] == bundles;
    var missing := MissingProfiles(ps);
    if missing != [] {
      return Err("Missing required profiles in registry: " + ListRepr(missing));
    }
    return Ok(Registry(ps, bs));
  }

  /** Once a record without an id was met, the rest of the records do not matter. */
  lemma {:induction false} ProfilesErrSticks(recs: seq<ProfileRecord>, n: nat)
    requires 0 < n <= |recs| && recs[n - 1].id.None? && ProfilesOf(recs[..n - 1]).Ok?
    ensures ProfilesOf(recs[..|recs|]) == Err(MissingId)
    decreases |recs| - n
  {
    if n < |recs| {
      assert recs[..|recs| - 1][..n - 1] == recs[..n - 1];
      ProfilesErrSticks(recs[..|recs| - 1], n);
      assert recs[..|recs|][..|recs| - 1] == recs[..|recs| - 1][..|recs| - 1];
    } else {
      assert recs[..|recs|][..|recs| - 1] == recs[..n - 1];
    }
  }

  lemma {:induction false} BundlesErrSticks(recs: seq<BundleRecord>, n: nat)
    requires 0 < n <= |recs| && recs[n - 1].id.None? && BundlesOf(recs[..n - 1]).Ok?
    ensures BundlesOf(recs[..|recs|]) == Err(MissingId)
    decreases |recs| - n
  {
    if n < |recs| {
      assert recs[..|recs| - 1][..n - 1] == recs[..n - 1];
      BundlesErrSticks(recs[..|recs| - 1], n);
      assert recs[..|recs|][..|recs| - 1] == recs[..|recs| - 1][..|recs| - 1];
    } else {
      assert recs[..|recs|][..|recs| - 1] == recs[..n - 1];
    }
  }

  lemma PutHasKey<V>(d: Dict<V>, k: string, v: V, k': string)
    ensures HasKey(Put(d, k, v), k') <==> k' == k || HasKey(d, k')
  {
    PutGet(d, k, v, k');
  }

  /** Building the profiles fails exactly when some record has no id, and
    * then its keys are exactly the records' ids. */
  lemma {:induction false} ProfilesOfKeys(recs: seq<ProfileRecord>)
    ensures ProfilesOf(recs).Ok? <==> forall i :: 0 <= i < |recs| ==> recs[i].id.Some?
    ensures ProfilesOf(recs).Err? ==> ProfilesOf(recs).error == MissingId
    ensures ProfilesOf(recs).Ok? ==>
      forall k :: HasKey(ProfilesOf(recs).value, k) <==> exists i :: 0 <= i < |recs| && recs[i].id == Some(k)
  {
    if recs != [] {
      var init := recs[..|recs| - 1];
      ProfilesOfKeys(init);
      assert forall i :: 0 <= i < |init| ==> init[i] == recs[i];
      var r := recs[|recs| - 1];
      if ProfilesOf(init).Ok? && r.id.Some? {
        forall k ensures HasKey(ProfilesOf(recs).value, k) <==> exists i :: 0 <= i < |recs| && recs[i].id == Some(k) {
          PutHasKey(ProfilesOf(init).value, r.id.value, ProfileOf(r), k);
          if exists i :: 0 <= i < |recs| && recs[i].id == Some(k) {
            var i :| 0 <= i < |recs| && recs[i].id == Some(k);
            if i < |init| { assert init[i].id == Some(k); }
          }
        }
      }
    }
  }

  lemma {:induction false} BundlesOfKeys(recs: seq<BundleRecord>)
    ensures BundlesOf(recs).Ok? <==> forall i :: 0 <= i < |recs| ==> recs[i].id.Some?
    ensures BundlesOf(recs).Err? ==> BundlesOf(recs).error == MissingId
  {
    if recs != [] {
      var init := recs[..|recs| - 1];
      BundlesOfKeys(init);
      assert forall i :: 0 <= i < |init| ==> init[i] == recs[i];
    }
  }

  /** `load_registry` succeeds exactly when every record has an id and the
    * three required profiles are among the profile ids. */
  lemma LoadSucceeds(profiles: seq<ProfileRecord>, bundles: seq<BundleRecord>)
    ensures Load(profiles, bundles).Ok? <==>
      (forall i :: 0 <= i < |profiles| ==> profiles[i].id.Some?)
      && (forall i :: 0 <= i < |bundles| ==> bundles[i].id.Some?)
      && (forall id :: id in RequiredProfiles ==> exists i :: 0 <= i < |profiles| && profiles[i].id == Some(id))
  {
    ProfilesOfKeys(profiles);
    BundlesOfKeys(bundles);
    if ProfilesOf(profiles).Ok? {
      var ps := ProfilesOf(profiles).value;
      assert MissingProfiles(ps) == [] <==> forall id :: id in RequiredProfiles ==> HasKey(ps, id) by {
        if MissingProfiles(ps) != [] { assert MissingProfiles(ps)[0] in MissingProfiles(ps); }
      }
    }
  }

  /** Every entry is stored under the id of its value. */
  predicate WellKeyed(reg: Registry)
  {
    (forall i :: 0 <= i < |reg.profiles| ==> reg.profiles[i].1.id == reg.profiles[i].0)
    && (forall i :: 0 <= i < |reg.bundles| ==> reg.bundles[i].1.id == reg.bundles[i].0)
  }

  /** Every entry of `d[k] = v` was an entry of `d` or is the new one. */
  lemma {:induction false} PutEntries<V>(d: Dict<V>, k: string, v: V)
    ensures forall e :: e in Put(d, k, v) ==> e in d || e == (k, v)
  {
    if d != [] && d[0].0 != k {
      PutEntries(d[1..], k, v);
    }
  }

  lemma {:induction false} ProfilesKeyed(recs: seq<ProfileRecord>)
    requires ProfilesOf(recs).Ok?
    ensures forall e :: e in ProfilesOf(recs).value ==> e.1.id == e.0
  {
    if recs != [] {
      var init := recs[..|recs| - 1];
      ProfilesKeyed(init);
      var r := recs[|recs| - 1];
      PutEntries(ProfilesOf(init).value, r.id.value, ProfileOf(r));
    }
  }

  lemma {:induction false} BundlesKeyed(recs: seq<BundleRecord>)
    requires BundlesOf(recs).Ok?
    ensures forall e :: e in BundlesOf(recs).value ==> e.1.id == e.0
  {
    if recs != [] {
      var init := recs[..|recs| - 1];
      BundlesKeyed(init);
      var r := recs[|recs| - 1];
      PutEntries(BundlesOf(init).value, r.id.value, BundleOf(r));
    }
  }

  /** A loaded registry keys every profile and bundle by its own id. */
  lemma LoadWellKeyed(profiles: seq<ProfileRecord>, bundles: seq<BundleRecord>)
    requires Load(profiles, bundles).Ok?
    ensures WellKeyed(Load(profiles, bundles).value)
  {
    ProfilesKeyed(profiles);
    BundlesKeyed(bundles);
    var reg := Load(profiles, bundles).value;
    assert forall i :: 0 <= i < |reg.profiles| ==> reg.profiles[i] in reg.profiles;
    assert forall i :: 0 <= i < |reg.bundles| ==> reg.bundles[i] in reg.bundles;
  }

  /** The last record with a given id wins, with the name defaulting to the
    * id and the expansion to the empty list. */
  lemma {:induction false} ProfilesLastWins(recs: seq<ProfileRecord>, i: nat)
    requires ProfilesOf(recs).Ok? && i < |recs| && recs[i].id.Some?
    requires forall j :: i < j < |recs| ==> recs[j].id != recs[i].id
    ensures Get(ProfilesOf(recs).value, recs[i].id.value)
            == Some(Profile(recs[i].id.value, recs[i].name.GetOr(recs[i].id.value), recs[i].expansion.GetOr([])))
  {
    var init := recs[..|recs| - 1];
    var r := recs[|recs| - 1];
    PutGet(ProfilesOf(init).value, r.id.value, ProfileOf(r), recs[i].id.value);
    if i < |recs| - 1 {
      ProfilesLastWins(init, i);
    }
  }

  /** The last record with a given id wins; its keywords are `[]` when
    * `match` or `keywords_any` is absent or null, and domain and task
    * default to the empty string. */
  lemma {:induction false} BundlesLastWins(recs: seq<BundleRecord>, i: nat)
    requires BundlesOf(recs).Ok? && i < |recs| && recs[i].id.Some?
    requires forall j :: i < j < |recs| ==> recs[j].id != recs[i].id
    ensures var r := recs[i];
      Get(BundlesOf(recs).value, r.id.value)
      == Some(Bundle(r.id.value, r.domain.GetOr(""), r.task.GetOr(""),
                     if r.matchRule.None? || r.matchRule.value.keywordsAny.None? then [] else r.matchRule.value.keywordsAny.value,
                     r.expansion.GetOr([])))
  {
    var init := recs[..|recs| - 1];
    var r := recs[|recs| - 1];
    PutGet(BundlesOf(init).value, r.id.value, BundleOf(r), recs[i].id.value);
    if i < |recs| - 1 {
      BundlesLastWins(init, i);
    }
  }
}
