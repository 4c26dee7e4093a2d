/** Why leasing the guarded domains is enough to keep the constraints. */
module ModeConstraints {
  import opened ExecutionModel
  import opened Planner

  type Modes = map<DomainId, ModeId>

  /** Every domain of the model, and no other, has a mode that it defines. */
  predicate Complete(model: Model, modes: Modes) {
    modes.Keys == Domains(model).Keys && forall domain <- modes :: Defined(model, domain, modes[domain])
  }

  function Constraints(model: Model, modes: Modes, domain: DomainId): seq<ModeConstraint>
    requires domain in modes && Defined(model, domain, modes[domain])
  {
    FindMode(model, domain, modes[domain]).constraints
  }

  /** The constraints that have `domain` at one end hold. */
  ghost predicate HoldAround(model: Model, modes: Modes, domain: DomainId) {
    forall owner <- modes :: Defined(model, owner, modes[owner]) ==>
      forall constraint <- Constraints(model, modes, owner) ::
        owner == domain || constraint.other.domain == domain ==> ConstraintHolds(modes, constraint)
  }

  /** Both ends of a constraint that involves `domain` are guarded by it. */
  lemma ConstraintIsGuarded(model: Model, owner: DomainId, mode: ModeId, constraint: ModeConstraint, domain: DomainId)
    requires Defined(model, owner, mode) && constraint in FindMode(model, owner, mode).constraints
    requires owner == domain || constraint.other.domain == domain
    ensures owner in Guarded(model, domain) && constraint.other.domain in Guarded(model, domain)
  {
    hide DomainIndex, ModeIndex;
    var candidate := Domains(model)[owner];
    DefinedModeIsListed(model, owner, mode);
    var definition := FindMode(model, owner, mode);
    assert Ends(owner, constraint, domain) <= ModeNeighbours(owner, definition, domain);
    assert ModeNeighbours(candidate.id, definition, domain) <= DomainNeighbours(candidate, domain);
    assert DomainNeighbours(candidate, domain) <= Guarded(model, domain);
  }

  lemma DefinedModeIsListed(model: Model, domain: DomainId, mode: ModeId)
    requires Defined(model, domain, mode)
    ensures Domains(model)[domain] in model.domains && Domains(model)[domain].id == domain
    ensures FindMode(model, domain, mode) in Domains(model)[domain].modes
  {
  }

  predicate AgreeOn(a: Modes, b: Modes, domains: set<DomainId>) {
    forall domain <- domains :: (domain in a <==> domain in b) && (domain in a ==> a[domain] == b[domain])
  }

  /** Whether the constraints around a domain hold depends on the guarded domains only. */
  lemma HoldAroundIsLocal(model: Model, a: Modes, b: Modes, domain: DomainId)
    requires HoldAround(model, a, domain) && AgreeOn(a, b, Guarded(model, domain))
    ensures HoldAround(model, b, domain)
  {
    hide DomainIndex, ModeIndex, Guarded;
    forall owner <- b | Defined(model, owner, b[owner])
      ensures forall constraint <- Constraints(model, b, owner) ::
        owner == domain || constraint.other.domain == domain ==> ConstraintHolds(b, constraint)
    {
      forall constraint <- Constraints(model, b, owner) | owner == domain || constraint.other.domain == domain
        ensures ConstraintHolds(b, constraint)
      {
        ConstraintIsGuarded(model, owner, b[owner], constraint, domain);
        assert owner in a && a[owner] == b[owner];
        assert constraint in Constraints(model, a, owner);
      }
    }
  }

  /** Changing one domain keeps all constraints if those around it hold afterwards. */
  lemma OneDomainChanges(model: Model, modes: Modes, domain: DomainId, mode: ModeId)
    requires ConstraintsHold(model, modes) && Defined(model, domain, mode)
    requires HoldAround(model, modes[domain := mode], domain)
    ensures ConstraintsHold(model, modes[domain := mode])
  {
    hide DomainIndex, ModeIndex;
    var after := modes[domain := mode];
    forall owner <- after
      ensures Defined(model, owner, after[owner])
      ensures forall constraint <- FindMode(model, owner, after[owner]).constraints :: ConstraintHolds(after, constraint)
    {
      forall constraint <- FindMode(model, owner, after[owner]).constraints
        ensures ConstraintHolds(after, constraint)
      {
        assert constraint in Constraints(model, after, owner);
        if owner != domain && constraint.other.domain != domain {
          assert ConstraintHolds(modes, constraint);
        }
      }
    }
  }

  lemma AllHoldAround(model: Model, modes: Modes, domain: DomainId)
    requires ConstraintsHold(model, modes)
    ensures HoldAround(model, modes, domain)
  {
    hide DomainIndex, ModeIndex;
  }
}
