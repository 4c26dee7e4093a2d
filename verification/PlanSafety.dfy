/** What a plan guarantees when its steps are carried out in order. */
module PlanSafety {
  import opened ExecutionModel
  import opened Sorting
  import opened UnitOrder
  import opened Planner

  function ToSet<T>(items: seq<T>): set<T> {
    set x | x in items
  }

  /** Every running unit has its dependencies running, and every bootstrap unit runs. */
  ghost predicate Safe(model: Model, running: set<UnitId>) {
    Closed(model, running) && Bootstraps(model) <= running
  }

  ghost predicate NoDependents(model: Model, running: set<UnitId>, unit: UnitId) {
    forall other <- running :: other in Units(model) ==> unit !in Dependencies(model, other)
  }

  ghost predicate DependenciesRun(model: Model, running: set<UnitId>, unit: UnitId) {
    unit in Units(model) && forall target <- Dependencies(model, unit) :: target in running
  }

  /** Stopping the units outside `required` in reverse dependency order: each stop
      finds no dependent running, and every state in between is safe. */
  lemma StopsStaySafe(model: Model, running: set<UnitId>, required: set<UnitId>, i: nat)
    requires WellFormed(model) && Safe(model, running)
    requires Closed(model, required) && Bootstraps(model) <= required
    requires i <= |StopList(model, running, required)|
    ensures Safe(model, running - ToSet(StopList(model, running, required)[..i]))
    ensures i < |StopList(model, running, required)| ==>
              NoDependents(model, running - ToSet(StopList(model, running, required)[..i]),
                           StopList(model, running, required)[i])
  {
    hide WellFormed, UnitIndex, OrderOf;
    OrderIsTopological(model, running - required);
    var stop := StopList(model, running, required);
    var left := running - ToSet(stop[..i]);
    forall unit, target | unit in left && target in Dependencies(model, unit)
      ensures target in left && (i < |stop| ==> target != stop[i])
    {
      if target in stop {
        var j :| 0 <= j < |stop| && stop[j] == target;
        assert Edge(Units(model), unit, stop[j]) && unit in running - required;
        var k :| 0 <= k < |stop[..j]| && stop[..j][k] == unit;
        assert j > i && target !in stop[..i];
      }
    }
  }

  ghost function StopList(model: Model, running: set<UnitId>, required: set<UnitId>): seq<UnitId>
    requires running <= Units(model).Keys
  {
    OrderOf(model, running - required, true)
  }

  ghost function StartList(model: Model, running: set<UnitId>, required: set<UnitId>): seq<UnitId>
    requires required <= Units(model).Keys
  {
    OrderOf(model, required - running, false)
  }

  /** Starting the missing units in dependency order: each start finds all its
      dependencies running, and every state in between is safe. */
  lemma StartsStaySafe(model: Model, running: set<UnitId>, required: set<UnitId>, i: nat)
    requires WellFormed(model) && running <= Units(model).Keys
    requires Closed(model, required) && Bootstraps(model) <= required
    requires Safe(model, running * required)
    requires i <= |StartList(model, running, required)|
    ensures Safe(model, running * required + ToSet(StartList(model, running, required)[..i]))
    ensures i < |StartList(model, running, required)| ==>
              DependenciesRun(model, running * required + ToSet(StartList(model, running, required)[..i]),
                              StartList(model, running, required)[i])
  {
    hide WellFormed, UnitIndex, OrderOf;
    OrderIsTopological(model, required - running);
    var start := StartList(model, running, required);
    var kept := running * required;
    forall k, target | 0 <= k < |start| && k <= i && target in Dependencies(model, start[k])
      ensures target in kept + ToSet(start[..i])
    {
      assert start[k] in start && start[k] in required - running && target in required;
      if target !in running {
        assert Edge(Units(model), start[k], target) && target in required - running;
        var j :| 0 <= j < |start[..k]| && start[..k][j] == target;
        assert start[..i][j] == target;
      }
    }
    forall unit <- ToSet(start[..i])
      ensures forall target <- Dependencies(model, unit) :: target in kept + ToSet(start[..i])
    {
      var k :| 0 <= k < |start[..i]| && start[..i][k] == unit;
      assert start[k] == unit;
    }
  }

  /** A plan divides the units: what is kept and what is stopped are what runs, what is
      kept and what is started are what is required, and no unit is listed twice. */
  lemma PlanPartitions(model: Model, current: Configuration, domain: DomainId, target: ModeId)
    requires WellFormed(model) && current.running <= Units(model).Keys && domain in current.modes
    ensures var plan := PlanFor(model, current, domain, target);
            && ToSet(plan.retain) + ToSet(plan.stop) == current.running
            && ToSet(plan.retain) + ToSet(plan.start) == Required(model, current.modes[domain := target])
            && Distinct(plan.retain) && Distinct(plan.stop) && Distinct(plan.start)
            && ToSet(plan.retain) !! ToSet(plan.stop) && ToSet(plan.retain) !! ToSet(plan.start)
  {
    hide WellFormed, OrderOf, Required;
    var required := Required(model, current.modes[domain := target]);
    RequiredIsKnown(model, current.modes[domain := target]);
    OrderIsTopological(model, current.running - required);
    OrderIsTopological(model, required - current.running);
    OrderIsTopological(model, required * current.running);
  }

  /** What a plan locks: the domains that a constraint joins to its own, and the exclusive
      resources of the units that it stops or starts. */
  lemma PlanLocks(model: Model, current: Configuration, domain: DomainId, target: ModeId)
    requires WellFormed(model) && current.running <= Units(model).Keys && domain in current.modes
    ensures var plan := PlanFor(model, current, domain, target);
            && (forall id :: id in plan.guarded <==> id == domain || JoinedTo(model, id, domain))
            && (forall unit <- plan.stop + plan.start :: unit in Units(model))
            && (forall resource :: resource in plan.resources <==>
                 exists unit <- plan.stop + plan.start :: resource in Units(model)[unit].exclusiveResources)
  {
    hide WellFormed, OrderOf, Required, Guarded, JoinedTo, UnitIndex;
    var required := Required(model, current.modes[domain := target]);
    RequiredIsKnown(model, current.modes[domain := target]);
    OrderIsTopological(model, current.running - required);
    OrderIsTopological(model, required - current.running);
    forall id ensures id in Guarded(model, domain) <==> id == domain || JoinedTo(model, id, domain) {
      GuardedMeans(model, id, domain);
    }
  }

  /** Carrying out a whole plan leaves exactly the required units running. */
  lemma PlanReachesRequired(model: Model, current: Configuration, domain: DomainId, target: ModeId)
    requires WellFormed(model) && current.running <= Units(model).Keys && domain in current.modes
    ensures var plan := PlanFor(model, current, domain, target);
            var required := Required(model, current.modes[domain := target]);
            && current.running - ToSet(plan.stop) == current.running * required
            && current.running - ToSet(plan.stop) + ToSet(plan.start) == required
  {
    hide WellFormed, OrderOf, Required;
    var required := Required(model, current.modes[domain := target]);
    RequiredIsKnown(model, current.modes[domain := target]);
    OrderIsTopological(model, current.running - required);
    OrderIsTopological(model, required - current.running);
  }

  /** Every plan passes the scheduler's checks: it locks at least its own domain,
      and no domain, unit or resource is named twice. */
  lemma PlanIsAcquirable(model: Model, current: Configuration, domain: DomainId, target: ModeId)
    requires WellFormed(model) && current.running <= Units(model).Keys && domain in current.modes
    ensures var plan := PlanFor(model, current, domain, target);
            && domain in plan.guarded
            && Distinct(plan.guarded) && Distinct(plan.stop + plan.start) && Distinct(plan.resources)
  {
    hide WellFormed, OrderOf, Required;
    var required := Required(model, current.modes[domain := target]);
    RequiredIsKnown(model, current.modes[domain := target]);
    OrderIsTopological(model, current.running - required);
    OrderIsTopological(model, required - current.running);
    var plan := PlanFor(model, current, domain, target);
    assert domain in Guarded(model, domain);
    forall i, j | 0 <= i < j < |plan.stop + plan.start|
      ensures (plan.stop + plan.start)[i] != (plan.stop + plan.start)[j]
    {
      if i < |plan.stop| <= j {
        assert plan.stop[i] in plan.stop && plan.start[j - |plan.stop|] in plan.start;
        assert plan.stop[i] in current.running && plan.start[j - |plan.stop|] !in current.running;
      }
    }
  }

  /** Comparing the start and stop lists is enough: two plans for the same request
      with the same lists lock the same domains and resources, so a lease taken for
      the accepted plan covers the plan made again under the lease. */
  lemma EqualListsLockTheSame(model: Model, first: Configuration, second: Configuration, domain: DomainId, target: ModeId)
    requires WellFormed(model) && domain in first.modes && domain in second.modes
    requires first.running <= Units(model).Keys && second.running <= Units(model).Keys
    requires PlanFor(model, first, domain, target).stop == PlanFor(model, second, domain, target).stop
    requires PlanFor(model, first, domain, target).start == PlanFor(model, second, domain, target).start
    ensures PlanFor(model, first, domain, target).guarded == PlanFor(model, second, domain, target).guarded
    ensures PlanFor(model, first, domain, target).resources == PlanFor(model, second, domain, target).resources
  {
    hide WellFormed, OrderOf, Required;
    var a, b := Required(model, first.modes[domain := target]), Required(model, second.modes[domain := target]);
    RequiredIsKnown(model, first.modes[domain := target]);
    RequiredIsKnown(model, second.modes[domain := target]);
    OrderIsTopological(model, first.running - a);
    OrderIsTopological(model, a - first.running);
    OrderIsTopological(model, second.running - b);
    OrderIsTopological(model, b - second.running);
    assert (a - first.running) + (first.running - a) == (b - second.running) + (second.running - b);
  }
}
