/** Policy.Validate of internal/domain/types.go, and the catalog check of internal/config/config.go. */
module Policies {
  import opened Domain
  import opened Sequences

  /** unicode.IsSpace, which strings.TrimSpace strips. */
  predicate IsSpace(c: char)
  {
    var u := c as int;
    (9 <= u <= 13) || u == 32 || u == 0x85 || u == 0xA0 || u == 0x1680 || (0x2000 <= u <= 0x200A) ||
    u == 0x2028 || u == 0x2029 || u == 0x202F || u == 0x205F || u == 0x3000
  }

  predicate Blank(s: string) { forall c :: c in s ==> IsSpace(c) }

  predicate Percentage(x: real) { 0.0 <= x <= 100.0 }

  function Listed(p: Policy): seq<string> { p.candidates + p.fallbacks }

  ghost predicate ValidPolicy(p: Policy, catalog: Catalog)
  {
    && !Blank(p.id) && !Blank(p.tenant) && !Blank(p.version)
    && !p.mode.OtherMode?
    && p.incumbent in catalog
    && (forall id :: id in Listed(p) ==> id in catalog) && NoDuplicates(Listed(p))
    && 0.0 <= p.qualityTolerance <= 1.0
    && Percentage(p.controlPercent) && Percentage(p.canaryPercent) && Percentage(p.explorationPercent)
    && p.explorationPercent <= 3.0
    && p.confidenceZ > 0.0
  }

  /** Every catalog entry is filed under the identifier it carries. */
  ghost predicate ValidCatalog(catalog: Catalog) { forall id :: id in catalog ==> catalog[id].id == id }

  datatype PolicyError =
    | MissingIdentity | UnsupportedMode | UnknownIncumbent | UnknownModel(id: string) | RepeatedModel(id: string)
    | BadTolerance | BadPercentage | TooMuchExploration | BadConfidence

  /** Every error names a rule the policy breaks. */
  ghost predicate Breaks(p: Policy, catalog: Catalog, error: PolicyError)
  {
    match error
    case MissingIdentity => Blank(p.id) || Blank(p.tenant) || Blank(p.version)
    case UnsupportedMode => p.mode !in {ObserveMode, ShadowMode, CanaryMode, ActiveMode}
    case UnknownIncumbent => p.incumbent !in catalog
    case UnknownModel(id) => id in p.candidates + p.fallbacks && id !in catalog
    case RepeatedModel(id) => multiset(p.candidates + p.fallbacks)[id] > 1
    case BadTolerance => !(0.0 <= p.qualityTolerance <= 1.0)
    case BadPercentage =>
      !(0.0 <= p.controlPercent <= 100.0 && 0.0 <= p.canaryPercent <= 100.0 && 0.0 <= p.explorationPercent <= 100.0)
    case TooMuchExploration => p.explorationPercent > 3.0
    case BadConfidence => p.confidenceZ <= 0.0
  }

  method Validate(p: Policy, catalog: Catalog) returns (error: Option<PolicyError>)
    ensures error.None? <==> ValidPolicy(p, catalog)
    ensures error.Some? ==> Breaks(p, catalog, error.value)
  {
    if Blank(p.id) || Blank(p.tenant) || Blank(p.version) { return Some(MissingIdentity); }
    if p.mode.OtherMode? { return Some(UnsupportedMode); }
    if p.incumbent !in catalog { return Some(UnknownIncumbent); }
    var seen: set<string> := {};
    var models := p.candidates + p.fallbacks;
    for i := 0 to |models|
      invariant seen == set id | id in models[..i]
      invariant NoDuplicates(models[..i]) && forall id :: id in seen ==> id in catalog
    {
      var id := models[i];
      if id !in catalog { return Some(UnknownModel(id)); }
      if id in seen {
        Repeated(models, i);
        return Some(RepeatedModel(id));
      }
      assert models[..i + 1] == models[..i] + [id];
      seen := seen + {id};
    }
    assert models[..|models|] == models;
    if p.qualityTolerance < 0.0 || p.qualityTolerance > 1.0 { return Some(BadTolerance); }
    if !Percentage(p.controlPercent) || !Percentage(p.canaryPercent) || !Percentage(p.explorationPercent) {
      return Some(BadPercentage);
    }
    if p.explorationPercent > 3.0 { return Some(TooMuchExploration); }
    if p.confidenceZ <= 0.0 { return Some(BadConfidence); }
    error := None;
  }

  /** A policy is valid iff it breaks none of the rules. */
  lemma ValidIffUnbroken(p: Policy, catalog: Catalog)
    ensures ValidPolicy(p, catalog) <==> forall e :: !Breaks(p, catalog, e)
  {
    hide Blank;
    var models := p.candidates + p.fallbacks;
    if !ValidPolicy(p, catalog) {
      if id :| id in models && id !in catalog { assert Breaks(p, catalog, UnknownModel(id)); }
      if i, j :| 0 <= i < j < |models| && models[i] == models[j] {
        Twice(models, i, j);
        assert Breaks(p, catalog, RepeatedModel(models[j]));
      }
      assert Breaks(p, catalog, MissingIdentity) || Breaks(p, catalog, UnsupportedMode) ||
             Breaks(p, catalog, UnknownIncumbent) || Breaks(p, catalog, BadTolerance) ||
             Breaks(p, catalog, BadPercentage) || Breaks(p, catalog, TooMuchExploration) ||
             Breaks(p, catalog, BadConfidence) || exists e :: Breaks(p, catalog, e);
    } else {
      forall id
        ensures multiset(models)[id] <= 1
      {
        AtMostOnce(models, id);
      }
    }
  }

  lemma Repeated(s: seq<string>, i: nat)
    requires i < |s| && s[i] in s[..i]
    ensures multiset(s)[s[i]] > 1 && !NoDuplicates(s)
  {
    var k :| 0 <= k < i && s[..i][k] == s[i];
    Twice(s, k, i);
  }
}
