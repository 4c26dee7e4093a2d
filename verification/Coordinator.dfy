/** The coordinator's queue: requests planned ahead against a projected configuration. */
module Coordinator {
  import opened Wrappers
  import opened ExecutionModel
  import opened UnitOrder
  import opened Planner
  import opened PlanSafety
  import opened JournalEvents
  import opened Scheduler

  datatype Accepted = Accepted(id: TransitionId, plan: Plan)

  /** Where the worker is with the transition it took from the queue. */
  datatype Stage =
    | Idle
    | Taken(item: Accepted)
    | Working(item: Accepted, stopped: nat, started: nat)
    | Done(item: Accepted, phase: Phase)

  datatype Completed = Completed(id: TransitionId, phase: Phase)

  // ---------------------------------------------------------------------
  // Plans that build on each other
  // ---------------------------------------------------------------------

  /** The configuration once the plan was carried out. */
  function Carried(configuration: Configuration, plan: Plan): Configuration {
    configuration.(modes := configuration.modes[plan.domain := plan.target],
                   running := configuration.running - ToSet(plan.stop) + ToSet(plan.start))
  }

  function CarriedAll(base: Configuration, items: seq<Accepted>): Configuration {
    if items == [] then base else Carried(CarriedAll(base, items[..|items| - 1]), items[|items| - 1].plan)
  }

  ghost predicate Usable(model: Model, configuration: Configuration, domain: DomainId) {
    configuration.generation == model.generation && configuration.running <= Units(model).Keys && domain in configuration.modes
  }

  ghost predicate PlannedFrom(model: Model, configuration: Configuration, domain: DomainId, plan: Plan)
    requires WellFormed(model)
  {
    && Usable(model, configuration, domain) && Plannable(model, configuration, domain, plan.target, false)
    && plan == PlanFor(model, configuration, domain, plan.target)
  }

  /** Each plan was made for the configuration that the plans before it lead to. */
  ghost predicate Chained(model: Model, base: Configuration, domain: DomainId, items: seq<Accepted>)
    requires WellFormed(model)
  {
    && Usable(model, base, domain)
    && forall i :: 0 <= i < |items| ==> PlannedFrom(model, CarriedAll(base, items[..i]), domain, items[i].plan)
  }

  lemma CarriedIsUsable(model: Model, configuration: Configuration, domain: DomainId, plan: Plan)
    requires WellFormed(model) && PlannedFrom(model, configuration, domain, plan)
    ensures Usable(model, Carried(configuration, plan), domain)
  {
    hide WellFormed, Plannable, OrderOf, Required;
    PlanReachesRequired(model, configuration, domain, plan.target);
    RequiredIsKnown(model, configuration.modes[domain := plan.target]);
  }

  lemma CarriedOneMore(base: Configuration, items: seq<Accepted>, item: Accepted)
    ensures CarriedAll(base, items + [item]) == Carried(CarriedAll(base, items), item.plan)
  {
    hide Carried;
    assert (items + [item])[..|items|] == items;
  }

  lemma {:induction false} CarriedFirst(base: Configuration, items: seq<Accepted>)
    requires items != []
    ensures CarriedAll(Carried(base, items[0].plan), items[1..]) == CarriedAll(base, items)
    decreases |items|
  {
    hide Carried;
    if |items| == 1 {
      assert items[..0] == [] && items[1..] == [];
      assert CarriedAll(base, items[..0]) == base;
    } else {
      var front := items[..|items| - 1];
      CarriedFirst(base, front);
      assert items[1..][..|items| - 2] == front[1..];
    }
  }

  lemma {:induction false} ChainIsUsable(model: Model, base: Configuration, domain: DomainId, items: seq<Accepted>)
    requires WellFormed(model) && Chained(model, base, domain, items)
    ensures Usable(model, CarriedAll(base, items), domain)
    decreases |items|
  {
    hide WellFormed, Usable, PlannedFrom, Carried;
    if items != [] {
      var front := items[..|items| - 1];
      CarriedIsUsable(model, CarriedAll(base, front), domain, items[|items| - 1].plan);
    }
  }

  lemma ChainGrows(model: Model, base: Configuration, domain: DomainId, items: seq<Accepted>, item: Accepted)
    requires WellFormed(model) && Chained(model, base, domain, items)
    requires PlannedFrom(model, CarriedAll(base, items), domain, item.plan)
    ensures Chained(model, base, domain, items + [item])
  {
    hide WellFormed, Usable, PlannedFrom, CarriedAll;
    var all := items + [item];
    forall i | 0 <= i < |all|
      ensures PlannedFrom(model, CarriedAll(base, all[..i]), domain, all[i].plan)
    {
      assert all[..i] == items[..i];
      assert items[..|items|] == items;
    }
  }

  lemma ChainAdvances(model: Model, base: Configuration, domain: DomainId, items: seq<Accepted>)
    requires WellFormed(model) && Chained(model, base, domain, items) && items != []
    ensures Chained(model, Carried(base, items[0].plan), domain, items[1..])
  {
    hide WellFormed, Usable, PlannedFrom, CarriedAll, Carried;
    assert items[..0] == [];
    CarriedNothing(base);
    CarriedIsUsable(model, base, domain, items[0].plan);
    var rest := items[1..];
    forall i | 0 <= i < |rest|
      ensures PlannedFrom(model, CarriedAll(Carried(base, items[0].plan), rest[..i]), domain, rest[i].plan)
    {
      CarriedFirst(base, items[..i + 1]);
      assert items[..i + 1][1..] == rest[..i] && items[..i + 1][0] == items[0];
    }
  }

  lemma CarriedNothing(base: Configuration)
    ensures CarriedAll(base, []) == base
  {
  }

  lemma FirstIsPlanned(model: Model, base: Configuration, domain: DomainId, items: seq<Accepted>)
    requires WellFormed(model) && Chained(model, base, domain, items) && items != []
    ensures PlannedFrom(model, base, domain, items[0].plan)
  {
    hide WellFormed, Usable, PlannedFrom;
    assert items[..0] == [];
  }

  // ---------------------------------------------------------------------
  // What holds between any two steps
  // ---------------------------------------------------------------------

  function Ids(items: seq<Accepted>): (r: seq<TransitionId>)
    ensures |r| == |items| && forall i :: 0 <= i < |r| ==> r[i] == items[i].id
  {
    seq(|items|, i requires 0 <= i < |items| => items[i].id)
  }

  function CompletedIds(results: seq<Completed>): (r: seq<TransitionId>)
    ensures |r| == |results| && forall i :: 0 <= i < |r| ==> r[i] == results[i].id
  {
    seq(|results|, i requires 0 <= i < |results| => results[i].id)
  }

  predicate Issued(ids: seq<TransitionId>, bound: TransitionId) {
    && (forall i, j :: 0 <= i < j < |ids| ==> ids[i] < ids[j])
    && (forall i :: 0 <= i < |ids| ==> ids[i] < bound)
  }

  /** The transition in hand, if there is one, and those that wait. */
  function InFlight(stage: Stage, queue: seq<Accepted>): seq<Accepted> {
    if stage.Idle? then queue else [stage.item] + queue
  }

  /** How far the engine's configuration is on the way from `base`. */
  ghost predicate UnderWay(stage: Stage, base: Configuration, configuration: Configuration) {
    match stage
    case Idle => configuration == base
    case Taken(item) => configuration == base
    case Working(item, stopped, started) =>
      && stopped <= |item.plan.stop| && started <= |item.plan.start| && (started > 0 ==> stopped == |item.plan.stop|)
      && configuration == base.(running := base.running - ToSet(item.plan.stop[..stopped]) + ToSet(item.plan.start[..started]))
    case Done(item, phase) => configuration == Carried(base, item.plan) && phase == Succeeded
  }

  /** The last request in flight is the active one, and every request was completed
      with success or is in flight, in the order of the requests. */
  ghost predicate Booked(
    domain: DomainId, items: seq<Accepted>, next: TransitionId, active: map<DomainId, TransitionId>,
    results: seq<Completed>, requested: seq<TransitionId>)
  {
    && Issued(Ids(items), next)
    && active == (if items == [] then map[] else map[domain := items[|items| - 1].id])
    && requested == CompletedIds(results) + Ids(items)
    && (forall i :: 0 <= i < |results| ==> results[i].phase == Succeeded)
  }

  lemma BookedGrows(
    domain: DomainId, items: seq<Accepted>, item: Accepted, active: map<DomainId, TransitionId>,
    results: seq<Completed>, requested: seq<TransitionId>)
    requires Booked(domain, items, item.id, active, results, requested)
    ensures Booked(domain, items + [item], item.id + 1, active[domain := item.id], results, requested + [item.id])
  {
    assert Ids(items + [item]) == Ids(items) + [item.id];
  }

  lemma BookedLater(
    domain: DomainId, items: seq<Accepted>, next: TransitionId, active: map<DomainId, TransitionId>,
    results: seq<Completed>, requested: seq<TransitionId>)
    requires Booked(domain, items, next, active, results, requested)
    ensures Booked(domain, items, next + 1, active, results, requested)
    ensures domain in active <==> items != []
  {
  }

  lemma BookedShrinks(
    domain: DomainId, items: seq<Accepted>, next: TransitionId, active: map<DomainId, TransitionId>,
    results: seq<Completed>, requested: seq<TransitionId>)
    requires Booked(domain, items, next, active, results, requested) && items != []
    ensures domain in active && (active[domain] == items[0].id <==> items[1..] == [])
    ensures Booked(domain, items[1..], next, if items[1..] == [] then active - {domain} else active,
                   results + [Completed(items[0].id, Succeeded)], requested)
    ensures items[1..] == [] ==> active - {domain} == map[]
  {
    var ids := Ids(items);
    assert Ids(items[1..]) == ids[1..];
    assert CompletedIds(results + [Completed(items[0].id, Succeeded)]) == CompletedIds(results) + [items[0].id];
    assert CompletedIds(results) + ids == CompletedIds(results) + [items[0].id] + ids[1..];
    if items[1..] != [] {
      assert ids[0] < ids[|ids| - 1];
    }
  }

  /** The queue under one domain's requests, one worker, a backend that succeeds. */
  class CoordinatorService {
    const model: Model
    const domain: DomainId
    const capacity: nat
    var configuration: Configuration
    var projected: Configuration
    var nextTransition: TransitionId
    var queue: seq<Accepted>
    var active: map<DomainId, TransitionId>
    var stage: Stage
    var results: seq<Completed>
    ghost var base: Configuration
    ghost var requested: seq<TransitionId>

    ghost predicate Valid()
      reads this
    {
      var items := InFlight(stage, queue);
      && WellFormed(model) && domain in Domains(model) && Domains(model)[domain].replacement != SupersedeIfSafe
      && Chained(model, base, domain, items) && projected == CarriedAll(base, items)
      && UnderWay(stage, base, configuration)
      && Booked(domain, items, nextTransition, active, results, requested)
    }

    constructor (model: Model, domain: DomainId, capacity: nat, configuration: Configuration)
      requires WellFormed(model) && domain in Domains(model) && Domains(model)[domain].replacement != SupersedeIfSafe
      requires Usable(model, configuration, domain)
      ensures Valid() && requested == [] && this.configuration == configuration
    {
      hide WellFormed, Domains;
      this.model, this.domain, this.capacity := model, domain, capacity;
      this.configuration, projected, nextTransition := configuration, configuration, 1;
      queue, active, stage, results := [], map[], Idle, [];
      base, requested := configuration, [];
    }

    /** A request is planned ahead when another is active, and refused when its domain
        does not queue. */
    method Request(mode: ModeId) returns (r: Result<TransitionId>)
      requires Valid()
      modifies this
      ensures Valid()
      ensures r.Ok? ==> requested == old(requested) + [r.value]
      ensures r.Err? ==> requested == old(requested)
      ensures configuration == old(configuration) && stage == old(stage) && results == old(results)
      ensures r.Ok? <==>
              && !(old(domain in active) && Domains(model)[domain].replacement == RejectWhileBusy)
              && old(|queue|) < capacity
              && Plannable(model, if old(domain in active) then old(projected) else old(configuration), domain, mode, false)
      ensures r.Err? ==>
              if old(domain in active) && Domains(model)[domain].replacement == RejectWhileBusy then r.error == Busy
              else if old(|queue|) >= capacity then r.error == ResourceExhausted
              else r.error in PlanErrors(model, old(projected), domain, mode, false)
      ensures r.Ok? ==> exists plan :: queue == old(queue) + [Accepted(r.value, plan)] && plan.target == mode &&
                                       PlannedFrom(model, old(projected), domain, plan)
      ensures r.Err? ==> queue == old(queue) && active == old(active)
    {
      hide WellFormed, Usable, PlannedFrom, Chained, CarriedAll, UnderWay, Plannable, PlanFor, PlanErrors, Domains, Booked;
      ghost var items := InFlight(stage, queue);
      BookedLater(domain, items, nextTransition, active, results, requested);
      ChainIsUsable(model, base, domain, items);
      var busy := domain in active;
      if busy && Domains(model)[domain].replacement == RejectWhileBusy { return Err(Busy); }
      if |queue| >= capacity { return Err(ResourceExhausted); }
      var queued := busy && Domains(model)[domain].replacement == Queue;
      var baseline := if queued then projected else configuration;
      if !busy { SettledBaseline(stage, base, configuration, queue); }
      assert baseline == projected;
      UsableMeans(model, projected, domain);
      var planned := BuildPlan(model, baseline, domain, mode, false);
      if planned.Err? {
        nextTransition := nextTransition + 1;
        return Err(planned.error);
      }
      PlannedMeans(model, projected, domain, planned.value, mode);
      var id := Admit(planned.value);
      return Ok(id);
    }

    /** Puts a planned request at the end of the queue. */
    method Admit(plan: Plan) returns (id: TransitionId)
      requires Valid() && PlannedFrom(model, projected, domain, plan)
      modifies this`nextTransition, this`projected, this`queue, this`active, this`requested
      ensures Valid() && queue == old(queue) + [Accepted(id, plan)] && requested == old(requested) + [id]
      ensures projected == Carried(old(projected), plan)
    {
      hide WellFormed, Usable, PlannedFrom, Chained, CarriedAll, UnderWay, Domains, Booked, Carried;
      ghost var items := InFlight(stage, queue);
      BookedLater(domain, items, nextTransition, active, results, requested);
      id := nextTransition;
      var item := Accepted(id, plan);
      PlannedNames(model, projected, domain, plan);
      ChainGrows(model, base, domain, items, item);
      CarriedOneMore(base, items, item);
      BookedGrows(domain, items, item, active, results, requested);
      assert InFlight(stage, queue + [item]) == items + [item];
      nextTransition, projected, queue, active, requested :=
        id + 1, Carried(projected, plan), queue + [item], active[domain := id], requested + [id];
    }

    /** The worker takes the oldest request. */
    method Take()
      requires Valid() && stage.Idle? && queue != []
      modifies this`stage, this`queue
      ensures Valid() && stage == Taken(old(queue)[0]) && queue == old(queue)[1..]
    {
      hide WellFormed, Usable, PlannedFrom, Chained, CarriedAll, Domains, Booked;
      assert InFlight(stage, queue) == InFlight(Taken(queue[0]), queue[1..]);
      stage, queue := Taken(queue[0]), queue[1..];
    }

    /** Acquires the lease and plans again under it; with one worker nobody else holds a
        lease, so only a malformed set of resources could be refused. */
    method Replan()
      requires Valid() && stage.Taken?
      modifies this`stage
      ensures Valid() && stage == Working(old(stage).item, 0, 0)
    {
      hide WellFormed, Usable, PlannedFrom, Chained, CarriedAll, Plannable, PlanFor, PlanErrors, Domains, Malformed, Booked;
      var item := stage.item;
      ghost var items := InFlight(stage, queue);
      FirstIsPlanned(model, base, domain, items);
      PlannedGives(model, configuration, domain, item.plan);
      var resources := Resources(item.plan.guarded, item.plan.stop + item.plan.start, item.plan.resources);
      PlanNamesNothingTwice(model, configuration, domain, item.plan, resources);
      var replanned := BuildPlan(model, configuration, domain, item.plan.target, false);
      var refusal := Refusal(resources, replanned, item.plan);
      NothingDone(base, item);
      assert InFlight(Working(item, 0, 0), queue) == items;
      stage := NextStage(item, refusal);
    }

    /** Stops or starts the next unit, or commits the mode when all are done. */
    method Work()
      requires Valid() && stage.Working?
      modifies this`stage, this`configuration
      ensures Valid() && !stage.Idle? && stage.item == old(stage).item
    {
      hide WellFormed, Usable, PlannedFrom, Chained, CarriedAll, Domains, Booked;
      var item := stage.item;
      FirstIsPlanned(model, base, domain, InFlight(stage, queue));
      if stage.stopped < |item.plan.stop| {
        var unit := item.plan.stop[stage.stopped];
        StopOneMore(base.running, item.plan.stop, item.plan.start, stage.stopped);
        configuration := configuration.(running := configuration.running - {unit});
        assert InFlight(stage, queue) == InFlight(stage.(stopped := stage.stopped + 1), queue);
        stage := stage.(stopped := stage.stopped + 1);
      } else if stage.started < |item.plan.start| {
        var unit := item.plan.start[stage.started];
        StartOneMore(base.running, item.plan.stop, item.plan.start, stage.started);
        configuration := configuration.(running := configuration.running + {unit});
        assert InFlight(stage, queue) == InFlight(stage.(started := stage.started + 1), queue);
        stage := stage.(started := stage.started + 1);
      } else {
        AllDone(item.plan.stop, item.plan.start);
        PlanIsFor(model, base, domain, item.plan);
        configuration := configuration.(modes := configuration.modes[domain := item.plan.target]);
        assert InFlight(stage, queue) == InFlight(Done(item, Succeeded), queue);
        stage := Done(item, Succeeded);
      }
    }

    /** The worker reports the outcome and, when nothing is left, projects anew. */
    method Complete()
      requires Valid() && stage.Done?
      modifies this
      ensures Valid() && stage.Idle? && results == old(results) + [Completed(old(stage).item.id, old(stage).phase)]
      ensures requested == old(requested) && queue == old(queue) && configuration == old(configuration)
    {
      hide WellFormed, Usable, PlannedFrom, Chained, CarriedAll, Carried, Domains, Booked;
      ghost var items := InFlight(stage, queue);
      var id := stage.item.id;
      assert items[1..] == queue && items[0] == stage.item;
      CarriedFirst(base, items);
      CarriedNothing(configuration);
      ChainAdvances(model, base, domain, items);
      BookedShrinks(domain, items, nextTransition, active, results, requested);
      if domain in active && active[domain] == id {
        active := active - {domain};
      }
      if queue == [] && active == map[] {
        projected := configuration;
      }
      results, stage, base := results + [Completed(id, stage.phase)], Idle, configuration;
    }

    method Step(event: Event)
      requires Valid()
      modifies this
      ensures Valid()
    {
      hide Valid;
      if event.RequestMode? {
        var _ := Request(event.mode);
      } else if stage.Taken? {
        Replan();
      } else if stage.Working? {
        Work();
      } else if stage.Done? {
        Complete();
      } else if queue != [] {
        Take();
      }
    }

    /** Any interleaving of requests with the worker's steps: every accepted request that
        was completed succeeded, in the order of the requests, and whatever was requested
        is completed or still waiting. */
    method Run(schedule: seq<Event>)
      requires Valid()
      modifies this
      ensures Valid()
      ensures AllSucceeded(results, requested)
      ensures stage.Idle? && queue == [] ==> |results| == |requested| && configuration == projected
    {
      hide Valid;
      for k := 0 to |schedule|
        invariant Valid()
      {
        Step(schedule[k]);
      }
      EveryRequestSucceeds(this);
    }
  }

  /** The completed transitions are the first ones requested, and all succeeded. */
  predicate AllSucceeded(results: seq<Completed>, requested: seq<TransitionId>) {
    |results| <= |requested| && forall i :: 0 <= i < |results| ==> results[i] == Completed(requested[i], Succeeded)
  }

  lemma BookedSucceeded(
    domain: DomainId, items: seq<Accepted>, next: TransitionId, active: map<DomainId, TransitionId>,
    results: seq<Completed>, requested: seq<TransitionId>)
    requires Booked(domain, items, next, active, results, requested)
    ensures AllSucceeded(results, requested) && |requested| == |results| + |items|
  {
    forall i | 0 <= i < |results|
      ensures results[i] == Completed(requested[i], Succeeded)
    {
      assert requested[i] == CompletedIds(results)[i];
    }
  }

  /** In every reachable state: what was completed succeeded, in request order. */
  lemma EveryRequestSucceeds(c: CoordinatorService)
    requires c.Valid()
    ensures AllSucceeded(c.results, c.requested)
    ensures c.stage.Idle? && c.queue == [] ==> |c.results| == |c.requested| && c.configuration == c.projected
  {
    hide WellFormed, Usable, Chained, Domains, Carried, Booked, AllSucceeded;
    BookedSucceeded(c.domain, InFlight(c.stage, c.queue), c.nextTransition, c.active, c.results, c.requested);
    if InFlight(c.stage, c.queue) == [] {
      SettledBaseline(c.stage, c.base, c.configuration, c.queue);
    }
  }

  /** Why a transition is given up under its lease. */
  function Refusal(resources: Resources, replanned: Result<Plan>, plan: Plan): Option<Phase> {
    if Malformed(resources) || replanned.Err? then Some(Failed)
    else if replanned.value.start != plan.start || replanned.value.stop != plan.stop then Some(PhaseSuperseded)
    else None
  }

  function NextStage(item: Accepted, refusal: Option<Phase>): Stage {
    match refusal
    case None => Working(item, 0, 0)
    case Some(phase) => Done(item, phase)
  }

  datatype Event = RequestMode(mode: ModeId) | WorkerStep

  lemma SettledBaseline(stage: Stage, base: Configuration, configuration: Configuration, queue: seq<Accepted>)
    requires UnderWay(stage, base, configuration) && InFlight(stage, queue) == []
    ensures configuration == CarriedAll(base, InFlight(stage, queue))
  {
  }

  lemma UsableMeans(model: Model, configuration: Configuration, domain: DomainId)
    requires Usable(model, configuration, domain)
    ensures configuration.running <= Units(model).Keys && domain in configuration.modes
  {
  }

  lemma PlannedMeans(model: Model, configuration: Configuration, domain: DomainId, plan: Plan, mode: ModeId)
    requires WellFormed(model) && Usable(model, configuration, domain) && Plannable(model, configuration, domain, mode, false)
    requires plan == PlanFor(model, configuration, domain, mode)
    ensures PlannedFrom(model, configuration, domain, plan) && plan.domain == domain && plan.target == mode
  {
    hide WellFormed, Plannable, OrderOf, Required;
  }

  lemma PlannedNames(model: Model, configuration: Configuration, domain: DomainId, plan: Plan)
    requires WellFormed(model) && PlannedFrom(model, configuration, domain, plan)
    ensures plan.domain == domain
  {
    hide WellFormed, Plannable, OrderOf, Required;
  }

  lemma PlannedGives(model: Model, configuration: Configuration, domain: DomainId, plan: Plan)
    requires WellFormed(model) && PlannedFrom(model, configuration, domain, plan)
    ensures configuration.running <= Units(model).Keys && domain in configuration.modes
    ensures Plannable(model, configuration, domain, plan.target, false) && plan == PlanFor(model, configuration, domain, plan.target)
  {
    hide WellFormed, Plannable, PlanFor;
  }

  lemma PlanIsFor(model: Model, configuration: Configuration, domain: DomainId, plan: Plan)
    requires WellFormed(model) && PlannedFrom(model, configuration, domain, plan)
    ensures plan.domain == domain
  {
    hide WellFormed, Plannable, OrderOf, Required;
  }

  lemma PlanNamesNothingTwice(model: Model, configuration: Configuration, domain: DomainId, plan: Plan, resources: Resources)
    requires WellFormed(model) && PlannedFrom(model, configuration, domain, plan)
    requires resources == Resources(plan.guarded, plan.stop + plan.start, plan.resources)
    ensures !Malformed(resources)
  {
    hide WellFormed, Plannable, PlanFor;
    PlanIsAcquirable(model, configuration, domain, plan.target);
  }

  lemma NothingDone(base: Configuration, item: Accepted)
    ensures UnderWay(Working(item, 0, 0), base, base)
  {
    assert item.plan.stop[..0] == [] && item.plan.start[..0] == [];
    assert base.running - ToSet([]) + ToSet([]) == base.running;
  }

  lemma StopOneMore(running: set<UnitId>, stop: seq<UnitId>, start: seq<UnitId>, n: nat)
    requires n < |stop|
    ensures running - ToSet(stop[..n + 1]) + ToSet(start[..0]) == running - ToSet(stop[..n]) + ToSet(start[..0]) - {stop[n]}
  {
    assert stop[..n + 1] == stop[..n] + [stop[n]];
  }

  lemma StartOneMore(running: set<UnitId>, stop: seq<UnitId>, start: seq<UnitId>, n: nat)
    requires n < |start|
    ensures running - ToSet(stop[..|stop|]) + ToSet(start[..n + 1]) == running - ToSet(stop[..|stop|]) + ToSet(start[..n]) + {start[n]}
  {
    assert start[..n + 1] == start[..n] + [start[n]];
  }

  lemma AllDone(stop: seq<UnitId>, start: seq<UnitId>)
    ensures stop[..|stop|] == stop && start[..|start|] == start
  {
  }
}
