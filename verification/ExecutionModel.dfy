/** The execution model: units with dependencies, domains with modes, and the
    requires/excludes constraints between modes of different domains. */
module ExecutionModel {

  // Identifiers are 64-bit unsigned values in which zero is reserved.
  type UnitId = nat
  type DomainId = nat
  type ModeId = nat
  type ResourceId = nat
  type TransitionId = nat

  datatype ReadinessPolicy =
    | LifecycleChannel | ProcessStarted | SupervisorNotification
    | SuccessfulExit | SocketAvailable | MountPresent

  datatype UnitKind = ManagedApplication | Service | OneShot | Mount | External

  datatype UnitDefinition = UnitDefinition(
    id: UnitId,
    name: string,
    kind: UnitKind,
    readiness: ReadinessPolicy,
    startTimeout: int,
    stopTimeout: int,
    maxAttempts: nat,
    retryDelay: int,
    dependencies: seq<UnitId>,
    exclusiveResources: seq<ResourceId>,
    bootstrap: bool)

  datatype ModeRef = ModeRef(domain: DomainId, mode: ModeId)

  datatype ConstraintKind = RequiresMode | ExcludesMode

  datatype ModeConstraint = ModeConstraint(kind: ConstraintKind, other: ModeRef)

  datatype ModeDefinition = ModeDefinition(
    id: ModeId,
    name: string,
    units: seq<UnitId>,
    constraints: seq<ModeConstraint>)

  datatype FailureAction =
    | HoldObservedConfiguration | EnterFallbackMode | RollbackIfDeclaredSafe
    | StopDomain | RequestSystemRecovery

  datatype ReplacementPolicy = RejectWhileBusy | Queue | SupersedeIfSafe

  datatype DomainDefinition = DomainDefinition(
    id: DomainId,
    name: string,
    initialMode: ModeId,
    replacement: ReplacementPolicy,
    recovery: FailureAction,
    recoveryDeadline: int,
    fallbackMode: ModeId,
    modes: seq<ModeDefinition>)

  datatype Model = Model(
    generation: nat,
    units: seq<UnitDefinition>,
    domains: seq<DomainDefinition>)

  // ---------------------------------------------------------------------
  // Lookup indexes.  An index is filled with `emplace`, so the first
  // definition of an identifier wins.
  // ---------------------------------------------------------------------

  function UnitIndex(units: seq<UnitDefinition>): (index: map<UnitId, UnitDefinition>)
    ensures forall id <- index :: index[id] in units && index[id].id == id
    ensures forall unit <- units :: unit.id in index
  {
    if units == [] then map[]
    else
      var last := units[|units| - 1];
      var index := UnitIndex(units[..|units| - 1]);
      assert units == units[..|units| - 1] + [last];
      if last.id in index then index else index[last.id := last]
  }

  function DomainIndex(domains: seq<DomainDefinition>): (index: map<DomainId, DomainDefinition>)
    ensures forall id <- index :: index[id] in domains && index[id].id == id
    ensures forall domain <- domains :: domain.id in index
  {
    if domains == [] then map[]
    else
      var last := domains[|domains| - 1];
      var index := DomainIndex(domains[..|domains| - 1]);
      assert domains == domains[..|domains| - 1] + [last];
      if last.id in index then index else index[last.id := last]
  }

  function ModeIndex(modes: seq<ModeDefinition>): (index: map<ModeId, ModeDefinition>)
    ensures forall id <- index :: index[id] in modes && index[id].id == id
    ensures forall mode <- modes :: mode.id in index
  {
    if modes == [] then map[]
    else
      var last := modes[|modes| - 1];
      var index := ModeIndex(modes[..|modes| - 1]);
      assert modes == modes[..|modes| - 1] + [last];
      if last.id in index then index else index[last.id := last]
  }

  function Units(model: Model): (index: map<UnitId, UnitDefinition>)
    ensures forall id <- index :: index[id] in model.units && index[id].id == id
    ensures forall unit <- model.units :: unit.id in index
  {
    UnitIndex(model.units)
  }

  function Domains(model: Model): (index: map<DomainId, DomainDefinition>)
    ensures forall id <- index :: index[id] in model.domains && index[id].id == id
    ensures forall domain <- model.domains :: domain.id in index
  {
    DomainIndex(model.domains)
  }

  /** The mode is defined by the domain. */
  predicate Defined(model: Model, domain: DomainId, mode: ModeId) {
    domain in Domains(model) && mode in ModeIndex(Domains(model)[domain].modes)
  }

  function FindMode(model: Model, domain: DomainId, mode: ModeId): (definition: ModeDefinition)
    requires Defined(model, domain, mode)
  {
    ModeIndex(Domains(model)[domain].modes)[mode]
  }

  // ---------------------------------------------------------------------
  // The dependency graph.  Dependencies on unknown units are not edges.
  // ---------------------------------------------------------------------

  predicate Edge(index: map<UnitId, UnitDefinition>, source: UnitId, target: UnitId) {
    source in index && target in index && target in index[source].dependencies
  }

  predicate IsPath(index: map<UnitId, UnitDefinition>, path: seq<UnitId>) {
    forall i :: 0 <= i < |path| - 1 ==> Edge(index, path[i], path[i + 1])
  }

  predicate IsCycle(index: map<UnitId, UnitDefinition>, path: seq<UnitId>) {
    |path| >= 2 && path[0] == path[|path| - 1] && IsPath(index, path)
  }

  ghost predicate Acyclic(index: map<UnitId, UnitDefinition>) {
    !exists path: seq<UnitId> :: IsCycle(index, path)
  }

  /** A path that steps back onto one of its own nodes contains a cycle. */
  lemma BackEdgeClosesCycle(index: map<UnitId, UnitDefinition>, path: seq<UnitId>, k: nat, target: UnitId)
    requires k < |path| && path[k] == target
    requires IsPath(index, path)
    requires Edge(index, path[|path| - 1], target)
    ensures IsCycle(index, path[k..] + [target])
  {
    var cycle := path[k..] + [target];
    forall i | 0 <= i < |cycle| - 1
      ensures Edge(index, cycle[i], cycle[i + 1])
    {
      if i + 1 < |path| - k {
        assert cycle[i] == path[k + i] && cycle[i + 1] == path[k + i + 1];
      }
    }
  }

  // ---------------------------------------------------------------------
  // What validation guarantees
  // ---------------------------------------------------------------------

  predicate Distinct<T(==)>(items: seq<T>) {
    forall i, j :: 0 <= i < j < |items| ==> items[i] != items[j]
  }

  predicate UniqueUnits(units: seq<UnitDefinition>) {
    forall i, j :: 0 <= i < j < |units| ==> units[i].id != units[j].id
  }

  predicate UniqueDomains(domains: seq<DomainDefinition>) {
    forall i, j :: 0 <= i < j < |domains| ==> domains[i].id != domains[j].id
  }

  predicate UniqueModes(modes: seq<ModeDefinition>) {
    forall i, j :: 0 <= i < j < |modes| ==> modes[i].id != modes[j].id
  }

  predicate UnitsWellFormed(model: Model) {
    && (forall unit <- model.units ::
          && unit.id != 0
          && 1 <= unit.maxAttempts <= 100
          && Distinct(unit.dependencies)
          && (forall dependency <- unit.dependencies :: dependency in Units(model))
          && (unit.bootstrap ==>
                forall dependency <- unit.dependencies ::
                  dependency in Units(model) && Units(model)[dependency].bootstrap))
    && UniqueUnits(model.units)
  }

  predicate DomainWellFormed(model: Model, domain: DomainDefinition) {
    && domain.id != 0
    && (forall mode <- domain.modes ::
          && mode.id != 0
          && Distinct(mode.units)
          && (forall unit <- mode.units :: unit in Units(model)))
    && UniqueModes(domain.modes)
    && domain.initialMode in ModeIndex(domain.modes)
    && (domain.recovery == EnterFallbackMode ==> domain.fallbackMode in ModeIndex(domain.modes))
  }

  predicate Assigned(model: Model, unit: UnitId) {
    exists domain <- model.domains :: exists mode <- domain.modes :: unit in mode.units
  }

  predicate ConstraintWellFormed(model: Model, self: ModeRef, constraints: seq<ModeConstraint>) {
    && (forall constraint <- constraints ::
          constraint.other != self && Defined(model, constraint.other.domain, constraint.other.mode))
    && (forall i, j :: 0 <= i < j < |constraints| && constraints[i].other == constraints[j].other
          ==> constraints[i].kind == constraints[j].kind)
  }

  // Names, timings and kinds, which no other part of this model looks at.

  predicate ValidName(name: string) {
    0 < |name| <= 128 &&
    forall c <- name :: 'a' <= c <= 'z' || 'A' <= c <= 'Z' || '0' <= c <= '9' || c == '_' || c == '-'
  }

  predicate ReadinessFits(kind: UnitKind, readiness: ReadinessPolicy) {
    match kind
    case ManagedApplication => readiness.LifecycleChannel? || readiness.ProcessStarted?
    case Service => readiness.ProcessStarted? || readiness.SupervisorNotification?
    case OneShot => readiness.SuccessfulExit?
    case Mount => readiness.MountPresent?
    case External => readiness.ProcessStarted? || readiness.SupervisorNotification?
  }

  predicate UnitPresentable(unit: UnitDefinition) {
    && ValidName(unit.name) && unit.startTimeout > 0 && unit.stopTimeout > 0 && unit.retryDelay >= 0
    && ReadinessFits(unit.kind, unit.readiness)
  }

  predicate ModesPresentable(modes: seq<ModeDefinition>) {
    && (forall i :: 0 <= i < |modes| ==> ValidName(modes[i].name))
    && (forall i, j :: 0 <= i < j < |modes| ==> modes[i].name != modes[j].name)
  }

  predicate DomainPresentable(domain: DomainDefinition) {
    ValidName(domain.name) && domain.recoveryDeadline > 0 && ModesPresentable(domain.modes)
  }

  predicate Presentable(model: Model) {
    && (forall i :: 0 <= i < |model.units| ==> UnitPresentable(model.units[i]))
    && (forall i, j :: 0 <= i < j < |model.units| ==> model.units[i].name != model.units[j].name)
    && (forall i :: 0 <= i < |model.domains| ==> DomainPresentable(model.domains[i]))
    && (forall i, j :: 0 <= i < j < |model.domains| ==> model.domains[i].name != model.domains[j].name)
  }

  /** The condition under which inspection reports no issue. */
  ghost predicate WellFormed(model: Model) {
    && model.generation != 0 && Presentable(model)
    && UnitsWellFormed(model)
    && Acyclic(Units(model))
    && (forall domain <- model.domains :: DomainWellFormed(model, domain))
    && UniqueDomains(model.domains)
    && (forall unit <- model.units :: unit.bootstrap <==> !Assigned(model, unit.id))
    && (forall domain <- model.domains :: forall mode <- domain.modes ::
          ConstraintWellFormed(model, ModeRef(domain.id, mode.id), mode.constraints))
  }

  // Lookups in a validated model find exactly the definitions listed.

  lemma UnitLookup(model: Model)
    requires WellFormed(model)
    ensures forall unit <- model.units :: unit.id in Units(model) && Units(model)[unit.id] == unit
  {
    assert UniqueUnits(model.units);
    hide WellFormed, UnitIndex;
    assert forall id :: id in Units(model) ==> Units(model)[id].id == id;
    forall i | 0 <= i < |model.units| ensures Units(model)[model.units[i].id] == model.units[i] {
      var k :| 0 <= k < |model.units| && model.units[k] == Units(model)[model.units[i].id];
      assert k == i;
    }
  }

  lemma DomainLookup(model: Model)
    requires WellFormed(model)
    ensures forall domain <- model.domains :: domain.id in Domains(model) && Domains(model)[domain.id] == domain
  {
    DomainsByLookup(model);
  }

  lemma DomainsByLookup(model: Model)
    requires UniqueDomains(model.domains)
    ensures forall domain <- model.domains :: domain.id in Domains(model) && Domains(model)[domain.id] == domain
  {
    hide DomainIndex;
    assert forall id :: id in Domains(model) ==> Domains(model)[id].id == id;
    forall i | 0 <= i < |model.domains| ensures Domains(model)[model.domains[i].id] == model.domains[i] {
      var k :| 0 <= k < |model.domains| && model.domains[k] == Domains(model)[model.domains[i].id];
      assert k == i;
    }
  }

  lemma ConstraintsAreKnown(model: Model)
    requires WellFormed(model)
    ensures forall domain <- model.domains :: forall mode <- domain.modes :: forall constraint <- mode.constraints ::
              constraint.other.domain in Domains(model)
  {
    forall domain <- model.domains, mode <- domain.modes, constraint <- mode.constraints
      ensures constraint.other.domain in Domains(model)
    {
      assert ConstraintWellFormed(model, ModeRef(domain.id, mode.id), mode.constraints);
    }
  }
}
