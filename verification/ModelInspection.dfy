/** The inspection of a model: it reports no issue exactly for a well-formed model. */
module ModelInspection {
  import opened ExecutionModel
  import opened CycleInspection

  datatype Issue =
    | InvalidGeneration | InvalidIdentifier | DuplicateIdentifier | InvalidName | DuplicateName | InvalidTimeout
    | InvalidRetryPolicy | InvalidReadinessPolicy | UnknownDependency
    | DependencyCycle | UnknownApplication | UnknownInitialMode | InvalidFallbackMode | InvalidUnitMembership
    | SelfConstraint | UnknownConstraintMode | ContradictoryConstraint

  // ---------------------------------------------------------------------
  // Identifiers
  // ---------------------------------------------------------------------

  /** Reports a reserved or repeated identifier and an invalid or repeated name; what is
      reserved or invalid is not remembered. */
  method InspectIdentity(id: nat, name: string, ids: set<nat>, names: set<string>)
    returns (issues: seq<Issue>, ids': set<nat>, names': set<string>)
    ensures issues == [] <==> id != 0 && id !in ids && ValidName(name) && name !in names
    ensures ids' == if id == 0 then ids else ids + {id}
    ensures names' == if ValidName(name) then names + {name} else names
  {
    issues, ids', names' := [], ids, names;
    if id == 0 {
      issues := issues + [InvalidIdentifier];
    } else if id in ids {
      issues := issues + [DuplicateIdentifier];
    } else {
      ids' := ids + {id};
    }
    if !ValidName(name) {
      issues := issues + [InvalidName];
    } else if name in names {
      issues := issues + [DuplicateName];
    } else {
      names' := names + {name};
    }
  }

  /** Reports an element that is listed again. */
  method InspectRepeats(items: seq<nat>) returns (issues: seq<Issue>)
    ensures issues == [] <==> Distinct(items)
  {
    issues := [];
    var seen: set<nat> := {};
    for i := 0 to |items|
      invariant seen == set x | x in items[..i]
      invariant issues == [] <==> Distinct(items[..i])
    {
      assert items[..i + 1] == items[..i] + [items[i]];
      if items[i] in seen {
        RepeatIsNotDistinct(items, i);
        issues := issues + [DuplicateIdentifier];
      } else {
        NewStaysDistinct(items, i);
        seen := seen + {items[i]};
      }
    }
    assert items[..|items|] == items;
  }

  lemma RepeatIsNotDistinct(items: seq<nat>, i: nat)
    requires i < |items| && items[i] in items[..i]
    ensures !Distinct(items[..i + 1])
  {
    var k :| 0 <= k < i && items[k] == items[i];
    assert items[..i + 1][k] == items[..i + 1][i];
  }

  lemma NewStaysDistinct(items: seq<nat>, i: nat)
    requires i < |items| && items[i] !in items[..i]
    ensures Distinct(items[..i + 1]) <==> Distinct(items[..i])
  {
    var before, after := items[..i], items[..i + 1];
    if Distinct(before) {
      forall a, b | 0 <= a < b < |after|
        ensures after[a] != after[b]
      {
        assert before[a] == after[a];
        if b < i { assert before[b] == after[b]; }
      }
    }
    if Distinct(after) {
      forall a, b | 0 <= a < b < |before|
        ensures before[a] != before[b]
      {
        assert after[a] == before[a] && after[b] == before[b];
      }
    }
  }

  // ---------------------------------------------------------------------
  // Units
  // ---------------------------------------------------------------------

  /** What is required of a unit beside its identity. */
  predicate UnitIsSound(unit: UnitDefinition) {
    && unit.startTimeout > 0 && unit.stopTimeout > 0 && 1 <= unit.maxAttempts <= 100 && unit.retryDelay >= 0
    && ReadinessFits(unit.kind, unit.readiness) && Distinct(unit.dependencies)
  }

  predicate UnitsAreSound(units: seq<UnitDefinition>, n: nat)
    requires n <= |units|
  {
    && (forall i :: 0 <= i < n ==> units[i].id != 0 && ValidName(units[i].name) && UnitIsSound(units[i]))
    && (forall i, j :: 0 <= i < j < n ==> units[i].id != units[j].id)
    && (forall i, j :: 0 <= i < j < n ==> units[i].name != units[j].name)
  }

  /** The checks of one unit, apart from its identity. */
  method InspectUnit(unit: UnitDefinition) returns (issues: seq<Issue>)
    ensures issues == [] <==> UnitIsSound(unit)
  {
    hide Distinct;
    issues := if unit.startTimeout <= 0 || unit.stopTimeout <= 0 then [InvalidTimeout] else [];
    if unit.maxAttempts == 0 || unit.maxAttempts > 100 || unit.retryDelay < 0 { issues := issues + [InvalidRetryPolicy]; }
    if !ReadinessFits(unit.kind, unit.readiness) { issues := issues + [InvalidReadinessPolicy]; }
    var repeats := InspectRepeats(unit.dependencies);
    issues := issues + repeats;
  }

  method InspectUnits(units: seq<UnitDefinition>) returns (issues: seq<Issue>)
    ensures issues == [] <==> UnitsAreSound(units, |units|)
  {
    hide UnitIsSound, ValidName;
    issues := [];
    var ids: set<nat> := {};
    var names: set<string> := {};
    for i := 0 to |units|
      invariant issues == [] <==> UnitsAreSound(units, i)
      invariant forall id :: id in ids <==> id != 0 && exists k :: 0 <= k < i && units[k].id == id
      invariant forall name :: name in names <==> ValidName(name) && exists k :: 0 <= k < i && units[k].name == name
    {
      var identity;
      identity, ids, names := InspectIdentity(units[i].id, units[i].name, ids, names);
      var found := InspectUnit(units[i]);
      issues := issues + identity + found;
    }
  }

  predicate DependenciesAreKnown(model: Model) {
    forall unit <- model.units :: forall dependency <- unit.dependencies :: dependency in Units(model)
  }

  method InspectDependencies(model: Model) returns (issues: seq<Issue>)
    ensures issues == [] <==> DependenciesAreKnown(model)
  {
    hide UnitIndex;
    issues := [];
    for i := 0 to |model.units|
      invariant issues == [] <==> forall k :: 0 <= k < i ==> AllKnown(Units(model), model.units[k].dependencies)
    {
      var unknown := InspectKnown(Units(model), model.units[i].dependencies, UnknownDependency);
      issues := issues + unknown;
    }
  }

  predicate AllKnown(index: map<UnitId, UnitDefinition>, ids: seq<UnitId>) {
    forall id <- ids :: id in index
  }

  method InspectKnown(index: map<UnitId, UnitDefinition>, ids: seq<UnitId>, issue: Issue) returns (issues: seq<Issue>)
    ensures issues == [] <==> AllKnown(index, ids)
  {
    issues := [];
    for i := 0 to |ids|
      invariant issues == [] <==> forall k :: 0 <= k < i ==> ids[k] in index
    {
      if ids[i] !in index { issues := issues + [issue]; }
    }
  }

  // ---------------------------------------------------------------------
  // Domains
  // ---------------------------------------------------------------------

  predicate ModeIsSound(index: map<UnitId, UnitDefinition>, mode: ModeDefinition) {
    mode.id != 0 && AllKnown(index, mode.units) && Distinct(mode.units)
  }

  predicate ModesAreSound(index: map<UnitId, UnitDefinition>, modes: seq<ModeDefinition>, n: nat)
    requires n <= |modes|
  {
    && (forall i :: 0 <= i < n ==> ModeIsSound(index, modes[i]) && ValidName(modes[i].name))
    && (forall i, j :: 0 <= i < j < n ==> modes[i].id != modes[j].id)
    && (forall i, j :: 0 <= i < j < n ==> modes[i].name != modes[j].name)
  }

  /** Reports a unit that is unknown, and a known one that is selected again. */
  method InspectSelection(index: map<UnitId, UnitDefinition>, units: seq<UnitId>) returns (issues: seq<Issue>)
    ensures issues == [] <==> AllKnown(index, units) && Distinct(units)
  {
    issues := [];
    var selected: set<UnitId> := {};
    for i := 0 to |units|
      invariant issues == [] ==> selected == (set x | x in units[..i])
      invariant issues == [] <==> (forall k :: 0 <= k < i ==> units[k] in index) && Distinct(units[..i])
      invariant forall x <- selected :: x in units[..i]
    {
      assert units[..i + 1] == units[..i] + [units[i]];
      if units[i] !in index {
        issues := issues + [UnknownApplication];
      } else if units[i] in selected {
        RepeatIsNotDistinct(units, i);
        issues := issues + [DuplicateIdentifier];
      } else {
        if units[i] in units[..i] {
          RepeatIsNotDistinct(units, i);
          StaysNotDistinct(units, i);
        } else {
          NewStaysDistinct(units, i);
        }
        selected := selected + {units[i]};
      }
    }
    assert units[..|units|] == units;
  }

  lemma StaysNotDistinct(items: seq<nat>, i: nat)
    requires i < |items|
    ensures Distinct(items[..i + 1]) ==> Distinct(items[..i])
  {
    if Distinct(items[..i + 1]) {
      forall a, b | 0 <= a < b < |items[..i]|
        ensures items[..i][a] != items[..i][b]
      {
        assert items[..i + 1][a] == items[..i][a] && items[..i + 1][b] == items[..i][b];
      }
    }
  }

  method InspectModes(index: map<UnitId, UnitDefinition>, modes: seq<ModeDefinition>) returns (issues: seq<Issue>, ids: set<ModeId>)
    ensures issues == [] <==> ModesAreSound(index, modes, |modes|)
    ensures forall id :: id in ids <==> id != 0 && exists k :: 0 <= k < |modes| && modes[k].id == id
  {
    hide Distinct, AllKnown, ValidName;
    issues, ids := [], {};
    var names: set<string> := {};
    for i := 0 to |modes|
      invariant issues == [] <==> ModesAreSound(index, modes, i)
      invariant forall id :: id in ids <==> id != 0 && exists k :: 0 <= k < i && modes[k].id == id
      invariant forall name :: name in names <==> ValidName(name) && exists k :: 0 <= k < i && modes[k].name == name
    {
      var identity;
      identity, ids, names := InspectIdentity(modes[i].id, modes[i].name, ids, names);
      var selection := InspectSelection(index, modes[i].units);
      issues := issues + identity + selection;
    }
  }

  /** What is required of a domain beside its own identity. */
  predicate DomainIsSound(model: Model, domain: DomainDefinition) {
    && ModesAreSound(Units(model), domain.modes, |domain.modes|) && domain.recoveryDeadline > 0
    && domain.initialMode in ModeIndex(domain.modes)
    && (domain.recovery == EnterFallbackMode ==> domain.fallbackMode in ModeIndex(domain.modes))
  }

  method InspectDomain(model: Model, domain: DomainDefinition) returns (issues: seq<Issue>)
    ensures issues == [] <==> DomainIsSound(model, domain)
  {
    hide UnitIndex, ModeIndex, Distinct, ValidName;
    var ids;
    issues, ids := InspectModes(Units(model), domain.modes);
    if domain.initialMode !in ids { issues := issues + [UnknownInitialMode]; }
    if domain.recoveryDeadline <= 0 { issues := issues + [InvalidTimeout]; }
    if domain.recovery == EnterFallbackMode && domain.fallbackMode !in ids { issues := issues + [InvalidFallbackMode]; }
    ModeIdsAreIndexed(domain.modes);
  }

  lemma ModeIdsAreIndexed(modes: seq<ModeDefinition>)
    ensures forall id :: id in ModeIndex(modes) <==> exists k :: 0 <= k < |modes| && modes[k].id == id
  {
    var index := ModeIndex(modes);
    assert forall id <- index :: index[id] in modes && index[id].id == id;
    assert forall mode <- modes :: mode.id in index;
    hide ModeIndex;
    forall k | 0 <= k < |modes|
      ensures modes[k].id in index
    {
      assert modes[k] in modes;
    }
  }

  predicate DomainsAreSound(model: Model, n: nat)
    requires n <= |model.domains|
  {
    && (forall i :: 0 <= i < n ==>
          model.domains[i].id != 0 && ValidName(model.domains[i].name) && DomainIsSound(model, model.domains[i]))
    && (forall i, j :: 0 <= i < j < n ==> model.domains[i].id != model.domains[j].id)
    && (forall i, j :: 0 <= i < j < n ==> model.domains[i].name != model.domains[j].name)
  }

  method InspectDomains(model: Model) returns (issues: seq<Issue>)
    ensures issues == [] <==> DomainsAreSound(model, |model.domains|)
  {
    hide DomainIsSound, ValidName;
    issues := [];
    var ids: set<nat> := {};
    var names: set<string> := {};
    for i := 0 to |model.domains|
      invariant issues == [] <==> DomainsAreSound(model, i)
      invariant forall id :: id in ids <==> id != 0 && exists k :: 0 <= k < i && model.domains[k].id == id
      invariant forall name :: name in names <==> ValidName(name) && exists k :: 0 <= k < i && model.domains[k].name == name
    {
      var identity;
      identity, ids, names := InspectIdentity(model.domains[i].id, model.domains[i].name, ids, names);
      var domain := InspectDomain(model, model.domains[i]);
      issues := issues + identity + domain;
    }
  }

  // ---------------------------------------------------------------------
  // Membership
  // ---------------------------------------------------------------------

  method CollectAssigned(model: Model) returns (members: set<UnitId>)
    ensures forall unit :: unit in members <==> Assigned(model, unit)
  {
    members := {};
    for d := 0 to |model.domains|
      invariant forall unit :: unit in members <==>
                  exists e :: 0 <= e < d && exists mode <- model.domains[e].modes :: unit in mode.units
    {
      var modes := CollectModes(model.domains[d].modes);
      members := members + modes;
    }
  }

  method CollectModes(modes: seq<ModeDefinition>) returns (members: set<UnitId>)
    ensures forall unit :: unit in members <==> exists mode <- modes :: unit in mode.units
  {
    members := {};
    for m := 0 to |modes|
      invariant forall unit :: unit in members <==> exists e :: 0 <= e < m && unit in modes[e].units
    {
      members := members + set unit | unit in modes[m].units;
    }
  }

  predicate MembershipHolds(model: Model, unit: UnitDefinition) {
    && (unit.bootstrap <==> !Assigned(model, unit.id))
    && (unit.bootstrap ==> OnlyBootstrap(Units(model), unit.dependencies))
  }

  /** No known dependency is controlled by modes. */
  predicate OnlyBootstrap(index: map<UnitId, UnitDefinition>, dependencies: seq<UnitId>) {
    forall dependency <- dependencies :: dependency in index ==> index[dependency].bootstrap
  }

  method InspectMembership(model: Model) returns (issues: seq<Issue>)
    ensures issues == [] <==> forall i :: 0 <= i < |model.units| ==> MembershipHolds(model, model.units[i])
  {
    hide UnitIndex, Assigned;
    var members := CollectAssigned(model);
    issues := [];
    for i := 0 to |model.units|
      invariant issues == [] <==> forall k :: 0 <= k < i ==> MembershipHolds(model, model.units[k])
    {
      var unit := model.units[i];
      if unit.bootstrap == (unit.id in members) { issues := issues + [InvalidUnitMembership]; }
      if unit.bootstrap && !OnlyBootstrap(Units(model), unit.dependencies) { issues := issues + [InvalidUnitMembership]; }
    }
  }

  // ---------------------------------------------------------------------
  // Constraints
  // ---------------------------------------------------------------------

  /** Some listed domain with that identifier lists a mode with that identifier. */
  predicate Listed(model: Model, reference: ModeRef) {
    exists domain <- model.domains :: domain.id == reference.domain && exists mode <- domain.modes :: mode.id == reference.mode
  }

  predicate ConstraintsAreSound(model: Model, self: ModeRef, constraints: seq<ModeConstraint>, n: nat)
    requires n <= |constraints|
  {
    && (forall i :: 0 <= i < n ==> constraints[i].other != self && Listed(model, constraints[i].other))
    && (forall i, j :: 0 <= i < j < n && constraints[i].other == constraints[j].other ==> constraints[i].kind == constraints[j].kind)
  }

  method InspectConstraints(model: Model, self: ModeRef, constraints: seq<ModeConstraint>) returns (issues: seq<Issue>)
    ensures issues == [] <==> ConstraintsAreSound(model, self, constraints, |constraints|)
  {
    hide Listed;
    issues := [];
    var kinds: map<ModeRef, ConstraintKind> := map[];
    for i := 0 to |constraints|
      invariant issues == [] <==> ConstraintsAreSound(model, self, constraints, i)
      invariant forall k :: 0 <= k < i ==> constraints[k].other in kinds
      invariant forall other <- kinds :: exists k :: 0 <= k < i && constraints[k] == ModeConstraint(kinds[other], other)
    {
      var constraint := constraints[i];
      if constraint.other == self { issues := issues + [SelfConstraint]; }
      if !Listed(model, constraint.other) { issues := issues + [UnknownConstraintMode]; }
      if constraint.other in kinds {
        if kinds[constraint.other] != constraint.kind { issues := issues + [ContradictoryConstraint]; }
      } else {
        kinds := kinds[constraint.other := constraint.kind];
        assert constraints[i] == ModeConstraint(kinds[constraint.other], constraint.other);
      }
    }
  }

  predicate ModeConstraintsAreSound(model: Model, domain: DomainDefinition, mode: ModeDefinition) {
    ConstraintsAreSound(model, ModeRef(domain.id, mode.id), mode.constraints, |mode.constraints|)
  }

  predicate DomainConstraintsAreSound(model: Model, domain: DomainDefinition) {
    forall i :: 0 <= i < |domain.modes| ==> ModeConstraintsAreSound(model, domain, domain.modes[i])
  }

  method InspectDomainConstraints(model: Model, domain: DomainDefinition) returns (issues: seq<Issue>)
    ensures issues == [] <==> DomainConstraintsAreSound(model, domain)
  {
    hide ConstraintsAreSound;
    issues := [];
    for i := 0 to |domain.modes|
      invariant issues == [] <==> forall k :: 0 <= k < i ==> ModeConstraintsAreSound(model, domain, domain.modes[k])
    {
      var found := InspectConstraints(model, ModeRef(domain.id, domain.modes[i].id), domain.modes[i].constraints);
      issues := issues + found;
    }
  }

  method InspectAllConstraints(model: Model) returns (issues: seq<Issue>)
    ensures issues == [] <==> forall i :: 0 <= i < |model.domains| ==> DomainConstraintsAreSound(model, model.domains[i])
  {
    hide DomainConstraintsAreSound;
    issues := [];
    for i := 0 to |model.domains|
      invariant issues == [] <==> forall k :: 0 <= k < i ==> DomainConstraintsAreSound(model, model.domains[k])
    {
      var found := InspectDomainConstraints(model, model.domains[i]);
      issues := issues + found;
    }
  }

  // ---------------------------------------------------------------------
  // The whole model
  // ---------------------------------------------------------------------

  ghost predicate Sound(model: Model) {
    && model.generation != 0
    && UnitsAreSound(model.units, |model.units|) && DependenciesAreKnown(model) && Acyclic(Units(model))
    && DomainsAreSound(model, |model.domains|)
    && (forall i :: 0 <= i < |model.units| ==> MembershipHolds(model, model.units[i]))
    && (forall i :: 0 <= i < |model.domains| ==> DomainConstraintsAreSound(model, model.domains[i]))
  }

  /** With unique domains, a listed mode is the one that a lookup finds. */
  lemma ListedIsDefined(model: Model, reference: ModeRef)
    requires UniqueDomains(model.domains)
    ensures Listed(model, reference) <==> Defined(model, reference.domain, reference.mode)
  {
    DomainsByLookup(model);
    hide DomainIndex;
    if Defined(model, reference.domain, reference.mode) {
      var domain := Domains(model)[reference.domain];
      ModeIdsAreIndexed(domain.modes);
      assert domain in model.domains;
    }
    if Listed(model, reference) {
      var domain :| domain in model.domains && domain.id == reference.domain && exists mode <- domain.modes :: mode.id == reference.mode;
      ModeIdsAreIndexed(domain.modes);
      assert Domains(model)[domain.id] == domain;
    }
  }

  lemma ConstraintsAgree(model: Model, self: ModeRef, constraints: seq<ModeConstraint>)
    requires UniqueDomains(model.domains)
    ensures ConstraintsAreSound(model, self, constraints, |constraints|) <==> ConstraintWellFormed(model, self, constraints)
  {
    hide Listed, Defined;
    forall i | 0 <= i < |constraints|
      ensures Listed(model, constraints[i].other) <==> Defined(model, constraints[i].other.domain, constraints[i].other.mode)
    {
      ListedIsDefined(model, constraints[i].other);
    }
  }

  predicate UnitNamesDiffer(model: Model) {
    forall i, j :: 0 <= i < j < |model.units| ==> model.units[i].name != model.units[j].name
  }

  lemma UnitsAgree(model: Model)
    ensures UnitsAreSound(model.units, |model.units|) && DependenciesAreKnown(model) &&
            (forall i :: 0 <= i < |model.units| ==> MembershipHolds(model, model.units[i])) <==>
            UnitsWellFormed(model) && (forall unit <- model.units :: unit.bootstrap <==> !Assigned(model, unit.id)) &&
            UnitNamesDiffer(model) && forall i :: 0 <= i < |model.units| ==> UnitPresentable(model.units[i])
  {
    hide UnitIndex, Assigned, Distinct, ValidName, ReadinessFits;
  }

  predicate DomainNamesDiffer(model: Model) {
    forall i, j :: 0 <= i < j < |model.domains| ==> model.domains[i].name != model.domains[j].name
  }

  lemma OneDomainAgrees(model: Model, domain: DomainDefinition)
    ensures domain.id != 0 && ValidName(domain.name) && DomainIsSound(model, domain) <==>
            DomainWellFormed(model, domain) && DomainPresentable(domain)
  {
    hide UnitIndex, ModeIndex, Distinct, ValidName;
    forall i | 0 <= i < |domain.modes|
      ensures domain.modes[i] in domain.modes
    {
    }
  }

  lemma DomainsAgree(model: Model)
    ensures DomainsAreSound(model, |model.domains|) <==>
            (forall domain <- model.domains :: DomainWellFormed(model, domain)) && UniqueDomains(model.domains) &&
            DomainNamesDiffer(model) && forall i :: 0 <= i < |model.domains| ==> DomainPresentable(model.domains[i])
  {
    hide DomainWellFormed, DomainIsSound, DomainPresentable, ValidName;
    forall i | 0 <= i < |model.domains|
      ensures model.domains[i].id != 0 && ValidName(model.domains[i].name) && DomainIsSound(model, model.domains[i]) <==>
              DomainWellFormed(model, model.domains[i]) && DomainPresentable(model.domains[i])
    {
      OneDomainAgrees(model, model.domains[i]);
    }
  }

  lemma SoundIsWellFormed(model: Model)
    ensures Sound(model) <==> WellFormed(model)
  {
    hide UnitsWellFormed, DomainWellFormed, ConstraintWellFormed, Assigned, Acyclic, UnitsAreSound, DependenciesAreKnown, MembershipHolds, ConstraintsAreSound, UnitIndex, UnitPresentable, DomainPresentable, DomainsAreSound;
    UnitsAgree(model);
    DomainsAgree(model);
    if UniqueDomains(model.domains) {
      forall domain <- model.domains, mode <- domain.modes
        ensures ConstraintsAreSound(model, ModeRef(domain.id, mode.id), mode.constraints, |mode.constraints|) <==>
                ConstraintWellFormed(model, ModeRef(domain.id, mode.id), mode.constraints)
      {
        ConstraintsAgree(model, ModeRef(domain.id, mode.id), mode.constraints);
      }
    }
  }

  /** Inspection reports no issue if and only if the model is well formed. */
  method InspectModel(model: Model) returns (issues: seq<Issue>)
    ensures issues == [] <==> WellFormed(model)
  {
    hide WellFormed, UnitsAreSound, DependenciesAreKnown, Acyclic, DomainsAreSound, MembershipHolds, DomainConstraintsAreSound, UnitIndex;
    issues := if model.generation == 0 then [InvalidGeneration] else [];
    var found := InspectUnits(model.units);
    issues := issues + found;
    found := InspectDependencies(model);
    issues := issues + found;
    var cycles := InspectDependencyCycles(model);
    issues := issues + seq(|cycles|, _ => DependencyCycle);
    found := InspectDomains(model);
    issues := issues + found;
    found := InspectMembership(model);
    issues := issues + found;
    found := InspectAllConstraints(model);
    issues := issues + found;
    SoundIsWellFormed(model);
  }
}
