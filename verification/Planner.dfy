/** The transition planner: from a mode request to ordered stop and start lists. */
module Planner {
  import opened ExecutionModel
  import opened Sorting
  import opened UnitOrder

  datatype ErrorCode =
    | NoError | InvalidArgument | InvalidIdentifier | InvalidTransition | AlreadyExists
    | NotFound | PermissionDenied | Busy | Superseded | Cancelled | DeadlineExceeded
    | ResourceExhausted | ConfigurationError | CommunicationError | BackendUnavailable
    | BackendError | PersistenceError | IncompatibleAbi | Unsupported | InternalError

  datatype Result<+T> = Ok(value: T) | Err(error: ErrorCode)

  datatype Configuration = Configuration(
    generation: nat,
    modes: map<DomainId, ModeId>,
    running: set<UnitId>)

  datatype Plan = Plan(
    generation: nat,
    domain: DomainId,
    source: ModeId,
    target: ModeId,
    retain: seq<UnitId>,
    stop: seq<UnitId>,
    start: seq<UnitId>,
    guarded: seq<DomainId>,
    resources: seq<ResourceId>)

  // ---------------------------------------------------------------------
  // What a configuration requires
  // ---------------------------------------------------------------------

  /** Every domain has a committed mode, and one that it defines. */
  predicate Selects(model: Model, modes: map<DomainId, ModeId>) {
    forall domain <- Domains(model) :: domain in modes && Defined(model, domain, modes[domain])
  }

  /** The units of the mode that the domain is in. */
  function ModeUnits(model: Model, modes: map<DomainId, ModeId>, domain: DomainId): seq<UnitId> {
    if domain in modes && Defined(model, domain, modes[domain]) then FindMode(model, domain, modes[domain]).units else []
  }

  function Bootstraps(model: Model): set<UnitId> {
    set unit | unit in Units(model) && Units(model)[unit].bootstrap
  }

  /** The bootstrap units and the units of every selected mode. */
  function Required(model: Model, modes: map<DomainId, ModeId>): set<UnitId> {
    Bootstraps(model) + set domain, unit | domain in Domains(model) && unit in ModeUnits(model, modes, domain) :: unit
  }

  /** Every unit of the set is known and has all its dependencies in the set. */
  predicate Closed(model: Model, units: set<UnitId>) {
    forall unit <- units :: unit in Units(model) && forall target <- Dependencies(model, unit) :: target in units
  }

  // ---------------------------------------------------------------------
  // Constraints between domains
  // ---------------------------------------------------------------------

  predicate ConstraintHolds(modes: map<DomainId, ModeId>, constraint: ModeConstraint) {
    var selected := constraint.other.domain in modes && modes[constraint.other.domain] == constraint.other.mode;
    match constraint.kind
    case RequiresMode => selected
    case ExcludesMode => !selected
  }

  predicate ConstraintsHold(model: Model, modes: map<DomainId, ModeId>) {
    forall domain <- modes ::
      Defined(model, domain, modes[domain]) &&
      forall constraint <- FindMode(model, domain, modes[domain]).constraints :: ConstraintHolds(modes, constraint)
  }

  /** Every selected mode is defined; the modes it requires are selected, and the modes it
      excludes are not. */
  lemma ConstraintsMean(model: Model, modes: map<DomainId, ModeId>)
    ensures ConstraintsHold(model, modes) <==>
            forall selected <- modes :: Defined(model, selected, modes[selected]) &&
              forall c <- FindMode(model, selected, modes[selected]).constraints ::
                var met := c.other.domain in modes && modes[c.other.domain] == c.other.mode;
                (c.kind.RequiresMode? ==> met) && (c.kind.ExcludesMode? ==> !met)
  {
    hide DomainIndex, ModeIndex;
    if ConstraintsHold(model, modes) {
      forall selected <- modes, c <- FindMode(model, selected, modes[selected]).constraints
        ensures var met := c.other.domain in modes && modes[c.other.domain] == c.other.mode;
                (c.kind.RequiresMode? ==> met) && (c.kind.ExcludesMode? ==> !met)
      {
        assert ConstraintHolds(modes, c);
      }
    }
  }

  /** The required units, read off the lists of the model. */
  lemma RequiredMeans(model: Model, modes: map<DomainId, ModeId>, id: UnitId)
    requires WellFormed(model)
    ensures id in Required(model, modes) <==>
            || (exists unit <- model.units :: unit.id == id && unit.bootstrap)
            || (exists domain <- model.domains :: domain.id in modes &&
                 exists mode <- domain.modes :: mode.id == modes[domain.id] && id in mode.units)
  {
    hide Acyclic, UnitIndex, DomainIndex, ModeIndex, Presentable, UnitsWellFormed, Assigned, ConstraintWellFormed;
    UnitLookup(model);
    DomainLookup(model);
    forall domain <- model.domains
      ensures domain.id in modes && Defined(model, domain.id, modes[domain.id]) ==>
              FindMode(model, domain.id, modes[domain.id]) in domain.modes
      ensures id in ModeUnits(model, modes, domain.id) <==>
              domain.id in modes && exists mode <- domain.modes :: mode.id == modes[domain.id] && id in mode.units
    {
      assert DomainWellFormed(model, domain);
      if domain.id in modes {
        ModeLookup(domain.modes, modes[domain.id]);
      }
    }
    if domain :| domain in model.domains && id in ModeUnits(model, modes, domain.id) {
      assert domain.id in Domains(model);
    }
  }

  lemma ModeLookup(modes: seq<ModeDefinition>, id: ModeId)
    requires UniqueModes(modes)
    ensures id in ModeIndex(modes) ==> ModeIndex(modes)[id] in modes && ModeIndex(modes)[id].id == id
    ensures forall mode <- modes :: mode.id == id ==> id in ModeIndex(modes) && ModeIndex(modes)[id] == mode
  {
    hide ModeIndex;
    assert id in ModeIndex(modes) ==> ModeIndex(modes)[id] in modes && ModeIndex(modes)[id].id == id;
    forall i | 0 <= i < |modes| && modes[i].id == id ensures ModeIndex(modes)[id] == modes[i] {
      var k :| 0 <= k < |modes| && modes[k] == ModeIndex(modes)[id];
      assert k == i;
    }
  }

  /** A selection is complete when each domain listed has one of its own listed modes. */
  lemma SelectsMeans(model: Model, modes: map<DomainId, ModeId>)
    requires WellFormed(model)
    ensures Selects(model, modes) <==>
            forall domain <- model.domains :: domain.id in modes && exists mode <- domain.modes :: mode.id == modes[domain.id]
  {
    hide WellFormed, DomainIndex, ModeIndex;
    DomainLookup(model);
    forall domain <- model.domains | domain.id in modes
      ensures Defined(model, domain.id, modes[domain.id]) <==> exists mode <- domain.modes :: mode.id == modes[domain.id]
    {
      assert Domains(model)[domain.id] == domain;
      if Defined(model, domain.id, modes[domain.id]) {
        assert ModeIndex(domain.modes)[modes[domain.id]] in domain.modes;
      }
    }
  }

  /** Both ends of a constraint, if one of them is `domain`. */
  function Ends(candidate: DomainId, constraint: ModeConstraint, domain: DomainId): set<DomainId> {
    if candidate == domain || constraint.other.domain == domain then {candidate, constraint.other.domain} else {}
  }

  function ModeNeighbours(candidate: DomainId, mode: ModeDefinition, domain: DomainId): set<DomainId> {
    set constraint, end | constraint in mode.constraints && end in Ends(candidate, constraint, domain) :: end
  }

  function DomainNeighbours(candidate: DomainDefinition, domain: DomainId): set<DomainId> {
    set mode, end | mode in candidate.modes && end in ModeNeighbours(candidate.id, mode, domain) :: end
  }

  /** The domain itself and every domain that a constraint joins to it. */
  function Guarded(model: Model, domain: DomainId): set<DomainId> {
    {domain} + set candidate, end | candidate in model.domains && end in DomainNeighbours(candidate, domain) :: end
  }

  /** Some constraint has `domain` at one end and `id` at one end. */
  ghost predicate JoinedTo(model: Model, id: DomainId, domain: DomainId) {
    exists candidate <- model.domains :: exists mode <- candidate.modes :: exists constraint <- mode.constraints ::
      (candidate.id == domain || constraint.other.domain == domain) && (id == candidate.id || id == constraint.other.domain)
  }

  lemma GuardedMeans(model: Model, id: DomainId, domain: DomainId)
    ensures id in Guarded(model, domain) <==> id == domain || JoinedTo(model, id, domain)
  {
    if id in Guarded(model, domain) && id != domain {
      var candidate :| candidate in model.domains && id in DomainNeighbours(candidate, domain);
      var mode :| mode in candidate.modes && id in ModeNeighbours(candidate.id, mode, domain);
      var constraint :| constraint in mode.constraints && id in Ends(candidate.id, constraint, domain);
      assert candidate in model.domains && mode in candidate.modes && constraint in mode.constraints;
    }
    forall candidate <- model.domains, mode <- candidate.modes, constraint <- mode.constraints
      ensures Ends(candidate.id, constraint, domain) <= Guarded(model, domain)
    {
      assert Ends(candidate.id, constraint, domain) <= ModeNeighbours(candidate.id, mode, domain);
      assert ModeNeighbours(candidate.id, mode, domain) <= DomainNeighbours(candidate, domain);
    }
  }

  function ResourcesOf(model: Model, units: set<UnitId>): set<ResourceId>
    requires units <= Units(model).Keys
  {
    set unit, resource | unit in units && resource in Units(model)[unit].exclusiveResources :: resource
  }

  // ---------------------------------------------------------------------
  // Plans
  // ---------------------------------------------------------------------

  predicate Plannable(model: Model, current: Configuration, domain: DomainId, target: ModeId, allowCurrent: bool) {
    && current.generation == model.generation
    && Defined(model, domain, target)
    && domain in current.modes
    && (allowCurrent || current.modes[domain] != target)
    && var proposed := current.modes[domain := target];
       ConstraintsHold(model, proposed) && Selects(model, proposed) && Closed(model, Required(model, proposed))
  }

  ghost function PlanFor(model: Model, current: Configuration, domain: DomainId, target: ModeId): (plan: Plan)
    requires WellFormed(model) && domain in current.modes && current.running <= Units(model).Keys
  {
    RequiredIsKnown(model, current.modes[domain := target]);
    var required := Required(model, current.modes[domain := target]);
    var stop := current.running - required;
    var start := required - current.running;
    Plan(current.generation, domain, current.modes[domain], target,
         OrderOf(model, required * current.running, false),
         OrderOf(model, stop, true),
         OrderOf(model, start, false),
         Enumerate(Guarded(model, domain)),
         Enumerate(ResourcesOf(model, start + stop)))
  }

  // ---------------------------------------------------------------------
  // The planner's loops
  // ---------------------------------------------------------------------

  predicate SomeUndefined(model: Model, modes: map<DomainId, ModeId>) {
    exists domain <- modes :: !Defined(model, domain, modes[domain])
  }

  predicate SomeViolated(model: Model, modes: map<DomainId, ModeId>) {
    exists domain <- modes :: Defined(model, domain, modes[domain]) &&
      exists constraint <- FindMode(model, domain, modes[domain]).constraints :: !ConstraintHolds(modes, constraint)
  }

  /** The errors that a refused selection may get.  The modes are walked in an arbitrary
      order, so with two causes either may be reported. */
  function SelectionErrors(model: Model, modes: map<DomainId, ModeId>): set<ErrorCode> {
    (if SomeUndefined(model, modes) then {ConfigurationError} else {}) +
    (if SomeViolated(model, modes) then {InvalidTransition} else {})
  }

  method ValidateConstraints(model: Model, modes: map<DomainId, ModeId>) returns (r: Result<()>)
    ensures r.Ok? <==> ConstraintsHold(model, modes)
    ensures r.Ok? <==>
            forall selected <- modes :: Defined(model, selected, modes[selected]) &&
              forall c <- FindMode(model, selected, modes[selected]).constraints ::
                var met := c.other.domain in modes && modes[c.other.domain] == c.other.mode;
                (c.kind.RequiresMode? ==> met) && (c.kind.ExcludesMode? ==> !met)
    ensures r.Err? ==> r.error in SelectionErrors(model, modes)
    ensures r.Err? ==> r.error in {ConfigurationError, InvalidTransition}
    ensures Selects(model, modes) && modes.Keys <= Domains(model).Keys && r.Err? ==> r.error == InvalidTransition
  {
    hide DomainIndex, ModeIndex, ConstraintHolds;
    ConstraintsMean(model, modes);
    var domains := Walk(modes.Keys);
    for i := 0 to |domains|
      invariant forall k :: 0 <= k < i ==>
        Defined(model, domains[k], modes[domains[k]]) &&
        forall constraint <- FindMode(model, domains[k], modes[domains[k]]).constraints :: ConstraintHolds(modes, constraint)
    {
      var domain := domains[i];
      if !Defined(model, domain, modes[domain]) {
        return Err(ConfigurationError);
      }
      var satisfied := ConstraintsSatisfied(modes, FindMode(model, domain, modes[domain]).constraints);
      if !satisfied {
        return Err(InvalidTransition);
      }
    }
    r := Ok(());
  }

  method ConstraintsSatisfied(modes: map<DomainId, ModeId>, constraints: seq<ModeConstraint>) returns (satisfied: bool)
    ensures satisfied <==> forall constraint <- constraints :: ConstraintHolds(modes, constraint)
  {
    hide ConstraintHolds;
    for j := 0 to |constraints|
      invariant forall k :: 0 <= k < j ==> ConstraintHolds(modes, constraints[k])
    {
      if !ConstraintHolds(modes, constraints[j]) {
        assert constraints[j] in constraints;
        return false;
      }
    }
    satisfied := true;
  }

  method BootstrapUnits(model: Model) returns (required: set<UnitId>)
    requires WellFormed(model)
    ensures required == Bootstraps(model)
  {
    hide WellFormed, UnitIndex;
    UnitLookup(model);
    required := {};
    for i := 0 to |model.units|
      invariant required <= Bootstraps(model)
      invariant forall k :: 0 <= k < i && model.units[k].bootstrap ==> model.units[k].id in required
    {
      if model.units[i].bootstrap {
        required := required + {model.units[i].id};
      }
    }
  }

  method SelectUnits(model: Model, modes: map<DomainId, ModeId>) returns (r: Result<set<UnitId>>)
    requires WellFormed(model)
    ensures r.Ok? <==> Selects(model, modes)
    ensures r.Ok? ==> r.value == Required(model, modes)
    ensures r.Err? ==> r.error == ConfigurationError
  {
    hide WellFormed, UnitIndex, DomainIndex, ModeIndex, Bootstraps, ModeUnits;
    DomainLookup(model);
    var required := BootstrapUnits(model);
    for i := 0 to |model.domains|
      invariant forall k :: 0 <= k < i ==>
        model.domains[k].id in modes && Defined(model, model.domains[k].id, modes[model.domains[k].id])
      invariant Bootstraps(model) <= required <= Required(model, modes)
      invariant forall k :: 0 <= k < i ==> forall unit <- ModeUnits(model, modes, model.domains[k].id) :: unit in required
    {
      var domain := model.domains[i].id;
      if domain !in modes || !Defined(model, domain, modes[domain]) {
        return Err(ConfigurationError);
      }
      required := required + (set unit | unit in ModeUnits(model, modes, domain));
    }
    r := Ok(required);
  }

  /** A validated model requires known units only. */
  lemma RequiredIsKnown(model: Model, modes: map<DomainId, ModeId>)
    requires WellFormed(model)
    ensures Required(model, modes) <= Units(model).Keys
  {
    forall domain, unit | domain in Domains(model) && unit in ModeUnits(model, modes, domain)
      ensures unit in Units(model)
    {
      assert DomainWellFormed(model, Domains(model)[domain]);
      assert FindMode(model, domain, modes[domain]) in Domains(model)[domain].modes;
    }
  }

  method CheckClosed(model: Model, units: set<UnitId>) returns (ok: bool)
    requires units <= Units(model).Keys
    ensures ok <==> Closed(model, units)
  {
    hide UnitIndex;
    var walked := Walk(units);
    for i := 0 to |walked|
      invariant forall k :: 0 <= k < i ==> forall target <- Dependencies(model, walked[k]) :: target in units
    {
      var dependencies := Dependencies(model, walked[i]);
      for j := 0 to |dependencies|
        invariant forall k :: 0 <= k < j ==> dependencies[k] in units
      {
        if dependencies[j] !in units {
          return false;
        }
      }
    }
    ok := true;
  }

  /** The units a selection of modes requires; a selection that leaves out a
      dependency of a selected unit is refused. */
  method RequiredUnits(model: Model, modes: map<DomainId, ModeId>) returns (r: Result<set<UnitId>>)
    requires WellFormed(model)
    ensures r.Ok? <==> Selects(model, modes) && Closed(model, Required(model, modes))
    ensures r.Ok? ==> r.value == Required(model, modes)
    ensures r.Ok? ==> forall id :: id in r.value <==>
            || (exists unit <- model.units :: unit.id == id && unit.bootstrap)
            || (exists domain <- model.domains :: domain.id in modes &&
                 exists mode <- domain.modes :: mode.id == modes[domain.id] && id in mode.units)
    ensures r.Ok? || r.error == InvalidTransition <==>
            forall domain <- model.domains :: domain.id in modes && exists mode <- domain.modes :: mode.id == modes[domain.id]
    ensures r.Err? ==> r.error == if Selects(model, modes) then InvalidTransition else ConfigurationError
  {
    hide WellFormed, Selects, Closed, Required;
    SelectsMeans(model, modes);
    forall id ensures id in Required(model, modes) <==>
            || (exists unit <- model.units :: unit.id == id && unit.bootstrap)
            || (exists domain <- model.domains :: domain.id in modes &&
                 exists mode <- domain.modes :: mode.id == modes[domain.id] && id in mode.units)
    {
      RequiredMeans(model, modes, id);
    }
    r := SelectUnits(model, modes);
    if r.Ok? {
      RequiredIsKnown(model, modes);
      var closed := CheckClosed(model, r.value);
      if !closed {
        r := Err(InvalidTransition);
      }
    }
  }

  ghost predicate Initial(model: Model, configuration: Configuration) {
    && configuration.generation == model.generation
    && configuration.modes == InitialModes(model)
    && configuration.running == Required(model, configuration.modes)
    && Closed(model, configuration.running)
  }

  function InitialModes(model: Model): map<DomainId, ModeId> {
    map domain | domain in Domains(model) :: Domains(model)[domain].initialMode
  }

  method InitialConfiguration(model: Model) returns (r: Result<Configuration>)
    requires WellFormed(model)
    ensures r.Ok? <==> Closed(model, Required(model, InitialModes(model)))
    ensures r.Ok? ==> Initial(model, r.value)
    ensures r.Ok? ==> forall domain <- model.domains ::
              domain.id in r.value.modes && r.value.modes[domain.id] == domain.initialMode
    ensures r.Err? ==> r.error == InvalidTransition
  {
    hide WellFormed, Closed, Required, Selects, InitialModes;
    InitialModesAreDefined(model);
    var modes := CollectInitialModes(model);
    var required := RequiredUnits(model, modes);
    r := match required
      case Ok(units) => Ok(Configuration(model.generation, modes, units))
      case Err(error) => Err(error);
  }

  method CollectInitialModes(model: Model) returns (modes: map<DomainId, ModeId>)
    requires WellFormed(model)
    ensures modes == InitialModes(model)
    ensures forall domain <- model.domains :: domain.id in modes && modes[domain.id] == domain.initialMode
  {
    hide WellFormed, DomainIndex;
    DomainLookup(model);
    modes := map[];
    for i := 0 to |model.domains|
      invariant forall k :: 0 <= k < i ==> model.domains[k].id in modes
      invariant forall id <- modes :: id in Domains(model) && modes[id] == Domains(model)[id].initialMode
    {
      if model.domains[i].id !in modes {
        modes := modes[model.domains[i].id := model.domains[i].initialMode];
      }
    }
  }

  lemma InitialModesAreDefined(model: Model)
    requires WellFormed(model)
    ensures Selects(model, InitialModes(model))
  {
    forall domain <- Domains(model) ensures Defined(model, domain, InitialModes(model)[domain]) {
      assert DomainWellFormed(model, Domains(model)[domain]);
    }
  }

  /** The units that only the modes other than the domain's own still require may be kept. */
  predicate Stoppable(model: Model, current: Configuration, domain: DomainId) {
    && current.generation == model.generation
    && domain in Domains(model)
    && var remaining := current.modes - {domain};
       (forall other <- remaining :: Defined(model, other, remaining[other])) && Closed(model, Required(model, remaining))
  }

  method StopDomainUnits(model: Model, current: Configuration, domain: DomainId) returns (r: Result<seq<UnitId>>)
    requires WellFormed(model) && current.running <= Units(model).Keys
    ensures r.Ok? <==> Stoppable(model, current, domain)
    ensures r.Ok? ==> r.value == OrderOf(model, current.running - Required(model, current.modes - {domain}), true)
    ensures r.Err? ==> r.error == ConfigurationError
  {
    hide WellFormed, UnitIndex, DomainIndex, Closed, Required, OrderOf;
    if current.generation != model.generation || domain !in Domains(model) {
      return Err(ConfigurationError);
    }
    var remaining := current.modes - {domain};
    var required := RemainingUnits(model, remaining);
    if required.Err? {
      return Err(ConfigurationError);
    }
    RequiredIsKnown(model, remaining);
    var closed := CheckClosed(model, required.value);
    if !closed {
      return Err(ConfigurationError);
    }
    var ordered := Order(model, current.running - required.value, true);
    r := Ok(ordered);
  }

  /** The units of the selected modes; unlike `SelectUnits` it walks the selection. */
  method RemainingUnits(model: Model, modes: map<DomainId, ModeId>) returns (r: Result<set<UnitId>>)
    requires WellFormed(model)
    ensures r.Ok? <==> forall domain <- modes :: Defined(model, domain, modes[domain])
    ensures r.Ok? ==> r.value == Required(model, modes)
    ensures r.Err? ==> r.error == ConfigurationError
  {
    hide WellFormed, UnitIndex, DomainIndex, ModeIndex, ModeUnits, Bootstraps;
    var required := BootstrapUnits(model);
    var selected := Walk(modes.Keys);
    for i := 0 to |selected|
      invariant forall k :: 0 <= k < i ==> Defined(model, selected[k], modes[selected[k]])
      invariant Bootstraps(model) <= required <= Required(model, modes)
      invariant forall k :: 0 <= k < i ==> forall unit <- ModeUnits(model, modes, selected[k]) :: unit in required
    {
      if !Defined(model, selected[i], modes[selected[i]]) {
        return Err(ConfigurationError);
      }
      required := required + set unit | unit in ModeUnits(model, modes, selected[i]);
    }
    UnselectedDomainsWantNothing(model, modes);
    r := Ok(required);
  }

  lemma UnselectedDomainsWantNothing(model: Model, modes: map<DomainId, ModeId>)
    ensures forall domain :: domain !in modes ==> ModeUnits(model, modes, domain) == []
  {
  }

  method CollectResources(model: Model, units: set<UnitId>) returns (resources: set<ResourceId>)
    requires units <= Units(model).Keys
    ensures resources == ResourcesOf(model, units)
    ensures forall resource :: resource in resources <==>
            exists unit <- units :: resource in Units(model)[unit].exclusiveResources
  {
    hide UnitIndex;
    resources := {};
    var left := units;
    while left != {}
      invariant left <= units && resources == ResourcesOf(model, units - left)
      decreases left
    {
      var unit :| unit in left;
      assert units - (left - {unit}) == (units - left) + {unit};
      resources := resources + set resource | resource in Units(model)[unit].exclusiveResources;
      left := left - {unit};
    }
    assert units - {} == units;
  }

  /** The three nested loops that collect the guarded domains. */
  method CollectGuarded(model: Model, domain: DomainId) returns (guarded: set<DomainId>)
    ensures guarded == Guarded(model, domain)
    ensures forall id :: id in guarded <==> id == domain || JoinedTo(model, id, domain)
  {
    hide ModeNeighbours, JoinedTo;
    forall id ensures id in Guarded(model, domain) <==> id == domain || JoinedTo(model, id, domain) {
      GuardedMeans(model, id, domain);
    }
    guarded := {domain};
    for i := 0 to |model.domains|
      invariant guarded <= Guarded(model, domain) && domain in guarded
      invariant forall k :: 0 <= k < i ==> DomainNeighbours(model.domains[k], domain) <= guarded
    {
      var candidate := model.domains[i];
      ghost var before := guarded;
      for j := 0 to |candidate.modes|
        invariant before <= guarded <= before + DomainNeighbours(candidate, domain)
        invariant forall k :: 0 <= k < j ==> ModeNeighbours(candidate.id, candidate.modes[k], domain) <= guarded
      {
        guarded := GuardMode(candidate.id, candidate.modes[j], domain, guarded);
      }
    }
  }

  method GuardMode(candidate: DomainId, mode: ModeDefinition, domain: DomainId, before: set<DomainId>)
    returns (guarded: set<DomainId>)
    ensures guarded == before + ModeNeighbours(candidate, mode, domain)
  {
    guarded := before;
    for i := 0 to |mode.constraints|
      invariant before <= guarded <= before + ModeNeighbours(candidate, mode, domain)
      invariant forall k :: 0 <= k < i ==> Ends(candidate, mode.constraints[k], domain) <= guarded
    {
      var other := mode.constraints[i].other.domain;
      if candidate == domain || other == domain {
        assert Ends(candidate, mode.constraints[i], domain) == {candidate, other};
        guarded := guarded + {candidate, other};
      }
    }
  }

  /** The errors that a refused request may get, by cause. */
  function PlanErrors(model: Model, current: Configuration, domain: DomainId, target: ModeId, allowCurrent: bool): set<ErrorCode> {
    if current.generation != model.generation then {ConfigurationError}
    else if !Defined(model, domain, target) then {NotFound}
    else if domain !in current.modes then {ConfigurationError}
    else if !allowCurrent && current.modes[domain] == target then {InvalidTransition}
    else
      var proposed := current.modes[domain := target];
      if !ConstraintsHold(model, proposed) then SelectionErrors(model, proposed)
      else if !Selects(model, proposed) then {ConfigurationError}
      else {InvalidTransition}
  }

  /** A request is planned exactly when it names another defined mode, and with it every
      requires and excludes constraint, every domain's choice and every dependency is met. */
  lemma PlannableMeans(model: Model, current: Configuration, domain: DomainId, target: ModeId, allowCurrent: bool)
    requires WellFormed(model)
    ensures Plannable(model, current, domain, target, allowCurrent) <==>
            && current.generation == model.generation && Defined(model, domain, target)
            && domain in current.modes && (allowCurrent || current.modes[domain] != target)
            && (var proposed := current.modes[domain := target];
                && (forall selected <- proposed :: Defined(model, selected, proposed[selected]) &&
                     forall c <- FindMode(model, selected, proposed[selected]).constraints ::
                       var met := c.other.domain in proposed && proposed[c.other.domain] == c.other.mode;
                       (c.kind.RequiresMode? ==> met) && (c.kind.ExcludesMode? ==> !met))
                && (forall listed <- model.domains ::
                     listed.id in proposed && exists mode <- listed.modes :: mode.id == proposed[listed.id])
                && Closed(model, Required(model, proposed)))
  {
    hide WellFormed, Defined, FindMode, ConstraintsHold, Selects, Closed, Required;
    if domain in current.modes {
      ConstraintsMean(model, current.modes[domain := target]);
      SelectsMeans(model, current.modes[domain := target]);
    }
  }

  method BuildPlan(model: Model, current: Configuration, domain: DomainId, target: ModeId, allowCurrent: bool)
    returns (r: Result<Plan>)
    requires WellFormed(model) && current.running <= Units(model).Keys
    ensures r.Ok? <==> Plannable(model, current, domain, target, allowCurrent)
    ensures r.Ok? <==>
            && current.generation == model.generation && Defined(model, domain, target)
            && domain in current.modes && (allowCurrent || current.modes[domain] != target)
            && (var proposed := current.modes[domain := target];
                && (forall selected <- proposed :: Defined(model, selected, proposed[selected]) &&
                     forall c <- FindMode(model, selected, proposed[selected]).constraints ::
                       var met := c.other.domain in proposed && proposed[c.other.domain] == c.other.mode;
                       (c.kind.RequiresMode? ==> met) && (c.kind.ExcludesMode? ==> !met))
                && (forall listed <- model.domains ::
                     listed.id in proposed && exists mode <- listed.modes :: mode.id == proposed[listed.id])
                && Closed(model, Required(model, proposed)))
    ensures r.Ok? ==> r.value == PlanFor(model, current, domain, target)
    ensures r.Ok? ==> r.value.domain == domain && r.value.source == current.modes[domain] && r.value.target == target
    ensures r.Err? ==> r.error in PlanErrors(model, current, domain, target, allowCurrent)
    ensures r.Err? ==> r.error in {ConfigurationError, NotFound, InvalidTransition}
    ensures r == Err(NotFound) <==> current.generation == model.generation && !Defined(model, domain, target)
  {
    hide WellFormed, UnitIndex, DomainIndex, ModeIndex, Closed, Required, Selects, ConstraintsHold, Guarded, ResourcesOf, OrderOf, SelectionErrors;
    PlannableMeans(model, current, domain, target, allowCurrent);
    if current.generation != model.generation {
      return Err(ConfigurationError);
    }
    if !Defined(model, domain, target) {
      return Err(NotFound);
    }
    if domain !in current.modes {
      return Err(ConfigurationError);
    }
    if !allowCurrent && current.modes[domain] == target {
      return Err(InvalidTransition);
    }
    var proposed := current.modes[domain := target];
    var constraints := ValidateConstraints(model, proposed);
    if constraints.Err? {
      return Err(constraints.error);
    }
    var required := RequiredUnits(model, proposed);
    if required.Err? {
      return Err(required.error);
    }
    RequiredIsKnown(model, proposed);
    var toStart, toStop := required.value - current.running, current.running - required.value;
    var resources := CollectResources(model, toStart + toStop);
    var retain := Order(model, required.value * current.running, false);
    var stop := Order(model, toStop, true);
    var start := Order(model, toStart, false);
    var guarded := CollectGuarded(model, domain);
    var guardedDomains := SortedWalk(guarded);
    var affectedResources := SortedWalk(resources);
    r := Ok(Plan(current.generation, domain, current.modes[domain], target,
                 retain, stop, start, guardedDomains, affectedResources));
  }
}
