/** All-or-nothing leases on domains, units and exclusive resources. */
module Scheduler {
  import opened ExecutionModel
  import opened Planner

  datatype Resources = Resources(domains: seq<DomainId>, units: seq<UnitId>, exclusive: seq<ResourceId>)

  /** A call of `Acquire` that waits for its resources. */
  datatype Request = Request(owner: TransitionId, resources: Resources)

  function DomainsOf(resources: Resources): seq<nat> { resources.domains }

  function UnitsOf(resources: Resources): seq<nat> { resources.units }

  function ExclusiveOf(resources: Resources): seq<nat> { resources.exclusive }

  predicate Disjoint(a: Resources, b: Resources) {
    && (forall d <- a.domains :: d !in b.domains)
    && (forall u <- a.units :: u !in b.units)
    && (forall e <- a.exclusive :: e !in b.exclusive)
  }

  predicate Malformed(resources: Resources) {
    resources.domains == [] || !Distinct(resources.domains) || !Distinct(resources.units) || !Distinct(resources.exclusive)
  }

  /** The owner map records exactly what the leases hold. */
  ghost predicate Owned(owners: map<nat, TransitionId>, leases: map<TransitionId, Resources>, held: Resources -> seq<nat>) {
    && (forall id <- owners :: owners[id] in leases && id in held(leases[owners[id]]))
    && (forall owner <- leases :: forall id <- held(leases[owner]) :: id in owners && owners[id] == owner)
  }

  predicate Free(requested: seq<nat>, owners: map<nat, TransitionId>) {
    forall id <- requested :: id !in owners
  }

  function Claimed(requested: seq<nat>, owner: TransitionId, owners: map<nat, TransitionId>): map<nat, TransitionId> {
    owners + map id | id in requested :: owner
  }

  function Unclaimed(owner: TransitionId, owners: map<nat, TransitionId>): map<nat, TransitionId> {
    map id | id in owners && owners[id] != owner :: owners[id]
  }

  method Available(requested: seq<nat>, owners: map<nat, TransitionId>) returns (available: bool)
    ensures available <==> Free(requested, owners)
  {
    for i := 0 to |requested|
      invariant forall k :: 0 <= k < i ==> requested[k] !in owners
    {
      if requested[i] in owners {
        return false;
      }
    }
    available := true;
  }

  method Claim(requested: seq<nat>, owner: TransitionId, owners: map<nat, TransitionId>) returns (r: map<nat, TransitionId>)
    requires Free(requested, owners)
    ensures r == Claimed(requested, owner, owners)
  {
    r := owners;
    for i := 0 to |requested|
      invariant r.Keys == owners.Keys + set k | 0 <= k < i :: requested[k]
      invariant forall id <- r :: r[id] == if id in owners then owners[id] else owner
    {
      if requested[i] !in r {
        r := r[requested[i] := owner];
      }
    }
  }

  method ReleaseOwned(owner: TransitionId, owners: map<nat, TransitionId>) returns (r: map<nat, TransitionId>)
    ensures r == Unclaimed(owner, owners)
  {
    r := owners;
    var left := owners.Keys;
    while left != {}
      invariant left <= owners.Keys
      invariant r == map id | id in owners && (id in left || owners[id] != owner) :: owners[id]
      decreases left
    {
      var id :| id in left;
      if r[id] == owner {
        r := r - {id};
      }
      left := left - {id};
    }
  }

  /** A lease is stored with `emplace`, which keeps an earlier lease of the owner. */
  function Emplaced(leases: map<TransitionId, Resources>, owner: TransitionId, resources: Resources): map<TransitionId, Resources> {
    if owner in leases then leases else leases[owner := resources]
  }

  /** Granting a request keeps the owner map exact if and only if the owner has no
      lease at that moment; waiting does not test this again, so it rests on
      concurrent calls having distinct owners. */
  lemma GrantIsExactIff(owners: map<nat, TransitionId>, leases: map<TransitionId, Resources>, held: Resources -> seq<nat>,
                        owner: TransitionId, resources: Resources)
    requires Owned(owners, leases, held) && Free(held(resources), owners)
    ensures owner !in leases ==> Owned(Claimed(held(resources), owner, owners), Emplaced(leases, owner, resources), held)
    ensures held(resources) != [] && owner in leases ==>
              !Owned(Claimed(held(resources), owner, owners), Emplaced(leases, owner, resources), held)
  {
    if held(resources) != [] && owner in leases {
      var id := held(resources)[0];
      assert id in Claimed(held(resources), owner, owners) && id !in held(leases[owner]);
    }
  }

  lemma ReleaseKeepsOwned(owners: map<nat, TransitionId>, leases: map<TransitionId, Resources>, held: Resources -> seq<nat>,
                          owner: TransitionId)
    requires Owned(owners, leases, held)
    ensures Owned(Unclaimed(owner, owners), leases - {owner}, held)
  {
  }

  // ---------------------------------------------------------------------
  // The scheduler's book, and what each call does to it
  // ---------------------------------------------------------------------

  datatype Book = Book(
    leases: map<TransitionId, Resources>,
    domains: map<DomainId, TransitionId>,
    units: map<UnitId, TransitionId>,
    exclusive: map<ResourceId, TransitionId>,
    waiting: map<nat, Request>)  // the calls blocked inside `Acquire`, by call

  const EMPTY_BOOK := Book(map[], map[], map[], map[], map[])

  predicate IsAvailable(b: Book, resources: Resources) {
    Free(resources.domains, b.domains) && Free(resources.units, b.units) && Free(resources.exclusive, b.exclusive)
  }

  /** The checks made before waiting. */
  function EnterResult(b: Book, owner: TransitionId, resources: Resources): Result<()> {
    if owner == 0 then Err(InvalidIdentifier)
    else if Malformed(resources) then Err(InvalidArgument)
    else if owner in b.leases then Err(AlreadyExists)
    else Ok(())
  }

  function Entered(b: Book, call: nat, owner: TransitionId, resources: Resources): Book {
    if EnterResult(b, owner, resources).Ok? then b.(waiting := b.waiting[call := Request(owner, resources)]) else b
  }

  /** A waiting call takes everything at once, or nothing; whether its owner has got a
      lease meanwhile is not looked at again. */
  function Woken(b: Book, call: nat): Book
    requires call in b.waiting
  {
    var owner, resources := b.waiting[call].owner, b.waiting[call].resources;
    if !IsAvailable(b, resources) then b
    else
      Book(Emplaced(b.leases, owner, resources), Claimed(resources.domains, owner, b.domains),
           Claimed(resources.units, owner, b.units), Claimed(resources.exclusive, owner, b.exclusive), b.waiting - {call})
  }

  function Released(b: Book, owner: TransitionId): Book {
    if owner !in b.leases then b
    else
      Book(b.leases - {owner}, Unclaimed(owner, b.domains), Unclaimed(owner, b.units), Unclaimed(owner, b.exclusive), b.waiting)
  }

  datatype SchedulerEvent =
    | Enters(call: nat, owner: TransitionId, resources: Resources)
    | Wakes(call: nat)
    | Expires(call: nat)
    | Releases(owner: TransitionId)

  function BookStep(b: Book, event: SchedulerEvent): Book {
    match event
    case Enters(call, owner, resources) => if call in b.waiting then b else Entered(b, call, owner, resources)
    case Wakes(call) => if call in b.waiting then Woken(b, call) else b
    case Expires(call) => b.(waiting := b.waiting - {call})
    case Releases(owner) => Released(b, owner)
  }

  /** The book after any sequence of calls, wake-ups, expired deadlines and releases. */
  function BookAfter(events: seq<SchedulerEvent>): Book {
    if events == [] then EMPTY_BOOK else BookStep(BookAfter(events[..|events| - 1]), events[|events| - 1])
  }

  /** The owner maps are the disjoint union of the live leases. */
  ghost predicate Exact(b: Book) {
    Owned(b.domains, b.leases, DomainsOf) && Owned(b.units, b.leases, UnitsOf) && Owned(b.exclusive, b.leases, ExclusiveOf)
  }

  /** Owner maps leave no room for sharing: two live leases have nothing in common. */
  lemma OwnedLeasesAreDisjoint(b: Book, first: TransitionId, second: TransitionId)
    requires Exact(b) && first in b.leases && second in b.leases && first != second
    ensures Disjoint(b.leases[first], b.leases[second])
  {
  }

  /** A request is available exactly when it shares nothing with a live lease. */
  lemma AvailableMeansDisjoint(b: Book, resources: Resources)
    requires Exact(b)
    ensures IsAvailable(b, resources) <==> forall owner <- b.leases :: Disjoint(resources, b.leases[owner])
  {
  }

  // ---------------------------------------------------------------------
  // When the book is exact
  // ---------------------------------------------------------------------

  /** A request is granted to an owner that has a lease already. */
  predicate GrantsTwice(b: Book, event: SchedulerEvent) {
    && event.Wakes? && event.call in b.waiting && IsAvailable(b, b.waiting[event.call].resources)
    && b.waiting[event.call].owner in b.leases
  }

  predicate WaitingWellFormed(b: Book) {
    forall call <- b.waiting :: !Malformed(b.waiting[call].resources)
  }

  lemma StepIsExactIff(b: Book, event: SchedulerEvent)
    requires Exact(b) && WaitingWellFormed(b)
    ensures Exact(BookStep(b, event)) <==> !GrantsTwice(b, event)
    ensures WaitingWellFormed(BookStep(b, event))
  {
    hide Owned, Claimed, Unclaimed, Free;
    match event
    case Enters(_, _, _) =>
    case Expires(_) =>
    case Releases(owner) =>
      ReleaseKeepsOwned(b.domains, b.leases, DomainsOf, owner);
      ReleaseKeepsOwned(b.units, b.leases, UnitsOf, owner);
      ReleaseKeepsOwned(b.exclusive, b.leases, ExclusiveOf, owner);
    case Wakes(call) =>
      if call in b.waiting && IsAvailable(b, b.waiting[call].resources) {
        var owner, resources := b.waiting[call].owner, b.waiting[call].resources;
        GrantIsExactIff(b.domains, b.leases, DomainsOf, owner, resources);
        GrantIsExactIff(b.units, b.leases, UnitsOf, owner, resources);
        GrantIsExactIff(b.exclusive, b.leases, ExclusiveOf, owner, resources);
      }
  }

  ghost predicate AlwaysExact(events: seq<SchedulerEvent>) {
    forall k :: 0 <= k <= |events| ==> Exact(BookAfter(events[..k]))
  }

  predicate NeverGrantsTwice(events: seq<SchedulerEvent>) {
    forall k :: 0 <= k < |events| ==> !GrantsTwice(BookAfter(events[..k]), events[k])
  }

  lemma BookOneMore(events: seq<SchedulerEvent>, k: nat)
    requires k < |events|
    ensures BookAfter(events[..k + 1]) == BookStep(BookAfter(events[..k]), events[k])
  {
    hide BookStep;
    assert events[..k + 1][..k] == events[..k];
  }

  lemma {:induction false} ExactSoFar(events: seq<SchedulerEvent>, n: nat)
    requires n <= |events| && forall k :: 0 <= k < n ==> !GrantsTwice(BookAfter(events[..k]), events[k])
    ensures Exact(BookAfter(events[..n])) && WaitingWellFormed(BookAfter(events[..n]))
  {
    hide Exact, BookStep, GrantsTwice, BookAfter;
    if n == 0 {
      assert events[..0] == [];
      EmptyIsExact();
    } else {
      ExactSoFar(events, n - 1);
      BookOneMore(events, n - 1);
      StepIsExactIff(BookAfter(events[..n - 1]), events[n - 1]);
    }
  }

  lemma EmptyIsExact()
    ensures Exact(BookAfter([])) && WaitingWellFormed(BookAfter([]))
  {
  }

  /** Over every run, the owner maps are exact in every state if and only if no request
      is ever granted to an owner that holds a lease. */
  lemma ExactIffNeverGrantedTwice(events: seq<SchedulerEvent>)
    ensures AlwaysExact(events) <==> NeverGrantsTwice(events)
  {
    hide Exact, BookStep, GrantsTwice, BookAfter;
    if NeverGrantsTwice(events) {
      forall k | 0 <= k <= |events| ensures Exact(BookAfter(events[..k])) {
        ExactSoFar(events, k);
      }
    } else {
      var k :| 0 <= k < |events| && GrantsTwice(BookAfter(events[..k]), events[k]);
      FirstGrant(events, k);
    }
  }

  lemma {:induction false} FirstGrant(events: seq<SchedulerEvent>, k: nat)
    requires k < |events| && GrantsTwice(BookAfter(events[..k]), events[k])
    ensures !AlwaysExact(events)
  {
    hide Exact, BookStep, GrantsTwice, BookAfter;
    if i :| 0 <= i < k && GrantsTwice(BookAfter(events[..i]), events[i]) {
      FirstGrant(events, i);
    } else {
      ExactSoFar(events, k);
      BookOneMore(events, k);
      StepIsExactIff(BookAfter(events[..k]), events[k]);
      assert !Exact(BookAfter(events[..k + 1]));
    }
  }

  // ---------------------------------------------------------------------
  // What a caller can see to: one call at a time for each owner
  // ---------------------------------------------------------------------

  /** No call enters for an owner that has another call waiting, as the engine's fresh
      transition identifiers ensure. */
  predicate OneCallPerOwner(events: seq<SchedulerEvent>) {
    forall k :: 0 <= k < |events| && events[k].Enters? ==>
      forall other <- BookAfter(events[..k]).waiting :: BookAfter(events[..k]).waiting[other].owner != events[k].owner
  }

  /** Waiting calls have distinct owners that hold nothing. */
  ghost predicate WaitingHoldNothing(b: Book) {
    && (forall call <- b.waiting :: b.waiting[call].owner !in b.leases)
    && (forall x, y :: x in b.waiting && y in b.waiting && x != y ==> b.waiting[x].owner != b.waiting[y].owner)
  }

  lemma StepKeepsWaiting(b: Book, event: SchedulerEvent)
    requires WaitingHoldNothing(b)
    requires event.Enters? ==> forall other <- b.waiting :: b.waiting[other].owner != event.owner
    ensures WaitingHoldNothing(BookStep(b, event)) && !GrantsTwice(b, event)
  {
    hide Claimed, Unclaimed, Free, Malformed;
  }

  lemma {:induction false} OneCallPerOwnerKeepsWaiting(events: seq<SchedulerEvent>, n: nat)
    requires OneCallPerOwner(events) && n <= |events|
    ensures WaitingHoldNothing(BookAfter(events[..n]))
  {
    hide BookStep, BookAfter, WaitingHoldNothing;
    if n == 0 {
      assert events[..0] == [];
      EmptyWaits();
    } else {
      OneCallPerOwnerKeepsWaiting(events, n - 1);
      BookOneMore(events, n - 1);
      StepKeepsWaiting(BookAfter(events[..n - 1]), events[n - 1]);
    }
  }

  lemma EmptyWaits()
    ensures WaitingHoldNothing(BookAfter([]))
  {
  }

  /** With one call at a time for each owner: in every state of every run the owner maps
      are exact, live leases are disjoint, and a waiting request holds nothing. */
  lemma OneCallPerOwnerIsSafe(events: seq<SchedulerEvent>)
    requires OneCallPerOwner(events)
    ensures AlwaysExact(events)
    ensures forall k :: 0 <= k <= |events| ==> WaitingHoldNothing(BookAfter(events[..k]))
  {
    hide Exact, BookStep, GrantsTwice, BookAfter, WaitingHoldNothing;
    forall k | 0 <= k <= |events| ensures WaitingHoldNothing(BookAfter(events[..k])) {
      OneCallPerOwnerKeepsWaiting(events, k);
    }
    forall k | 0 <= k < |events| ensures !GrantsTwice(BookAfter(events[..k]), events[k]) {
      StepKeepsWaiting(BookAfter(events[..k]), events[k]);
    }
    ExactIffNeverGrantedTwice(events);
  }

  function Only(domain: DomainId): Resources {
    Resources([domain], [], [])
  }

  lemma EnteredOnly(b: Book, call: nat, owner: TransitionId, domain: DomainId)
    requires owner != 0 && owner !in b.leases
    ensures Entered(b, call, owner, Only(domain)) == b.(waiting := b.waiting[call := Request(owner, Only(domain))])
  {
  }

  lemma WokenOnly(b: Book, call: nat, owner: TransitionId, domain: DomainId)
    requires call in b.waiting && b.waiting[call] == Request(owner, Only(domain)) && domain !in b.domains
    ensures Woken(b, call) ==
            b.(leases := Emplaced(b.leases, owner, Only(domain)), domains := b.domains[domain := owner], waiting := b.waiting - {call})
  {
    hide Claimed;
    ClaimedOne(domain, owner, b.domains);
    ClaimedNone(owner, b.units);
    ClaimedNone(owner, b.exclusive);
  }

  lemma ClaimedOne(id: nat, owner: TransitionId, owners: map<nat, TransitionId>)
    ensures Claimed([id], owner, owners) == owners[id := owner]
  {
  }

  lemma ClaimedNone(owner: TransitionId, owners: map<nat, TransitionId>)
    ensures Claimed([], owner, owners) == owners
  {
  }

  /** One lease on record, two domains owned. */
  function Overdrawn(owner: TransitionId): Book {
    Book(map[owner := Only(1)], map[1 := owner, 2 := owner], map[], map[], map[])
  }

  lemma OverdrawnIsNotExact(owner: TransitionId)
    ensures !Exact(Overdrawn(owner)) && Released(Overdrawn(owner), owner) == EMPTY_BOOK
  {
    var b := Overdrawn(owner);
    assert 2 in b.domains && 2 !in DomainsOf(b.leases[owner]);
    assert b.leases - {owner} == map[] && Unclaimed(owner, b.domains) == map[];
  }

  /** Two calls of one owner wait together and both are granted: the first release frees
      what both took, and a third call gets what the second still counts on. */
  lemma TwoCallsOfOneOwner(owner: TransitionId, other: TransitionId)
    requires owner != 0 && other != 0 && owner != other
    ensures var both := [Enters(1, owner, Only(1)), Enters(2, owner, Only(2)), Wakes(1), Wakes(2)];
            var freed := both + [Releases(owner)];
            var taken := freed + [Enters(3, other, Only(2)), Wakes(3)];
            && BookAfter(both) == Overdrawn(owner) && !Exact(BookAfter(both))
            && BookAfter(freed) == EMPTY_BOOK
            && BookAfter(taken).leases == map[other := Only(2)] && BookAfter(taken).domains == map[2 := other]
  {
    hide BookAfter, Entered, Woken, Released, Exact, Only;
    var e1, e2, e3, e4 := Enters(1, owner, Only(1)), Enters(2, owner, Only(2)), Wakes(1), Wakes(2);
    var all := [e1, e2, e3, e4, Releases(owner), Enters(3, other, Only(2)), Wakes(3)];
    var both := [e1, e2, e3, e4];
    assert both == all[..4] && both + [all[4]] == all[..5] && both + [all[4]] + [all[5], all[6]] == all[..7];
    EmptyHistory();
    assert all[..0] == [];
    var r1, r2 := Request(owner, Only(1)), Request(owner, Only(2));
    BookOneMore(all, 0);
    EnteredOnly(EMPTY_BOOK, 1, owner, 1);
    BookOneMore(all, 1);
    EnteredOnly(BookAfter(all[..1]), 2, owner, 2);
    BookOneMore(all, 2);
    WokenOnly(BookAfter(all[..2]), 1, owner, 1);
    assert BookAfter(all[..3]) == Book(map[owner := Only(1)], map[1 := owner], map[], map[], map[2 := r2]);
    BookOneMore(all, 3);
    WokenOnly(BookAfter(all[..3]), 2, owner, 2);
    assert BookAfter(all[..4]) == Overdrawn(owner);
    OverdrawnIsNotExact(owner);
    BookOneMore(all, 4);
    BookOneMore(all, 5);
    EnteredOnly(EMPTY_BOOK, 3, other, 2);
    BookOneMore(all, 6);
    WokenOnly(BookAfter(all[..6]), 3, other, 2);
  }

  lemma EmptyHistory()
    ensures BookAfter([]) == EMPTY_BOOK
  {
  }

  class TransitionScheduler {
    var leases: map<TransitionId, Resources>
    var domains: map<DomainId, TransitionId>
    var units: map<UnitId, TransitionId>
    var exclusive: map<ResourceId, TransitionId>
    var waiting: map<nat, Request>

    function View(): Book
      reads this
    {
      Book(leases, domains, units, exclusive, waiting)
    }

    constructor ()
      ensures View() == EMPTY_BOOK
    {
      leases, domains, units, exclusive, waiting := map[], map[], map[], map[], map[];
    }

    /** The part of a call before it waits. */
    method Enter(call: nat, owner: TransitionId, resources: Resources) returns (r: Result<()>)
      requires call !in waiting
      modifies this`waiting
      ensures r == EnterResult(old(View()), owner, resources) && View() == Entered(old(View()), call, owner, resources)
      ensures r.Ok? <==>
              && owner != 0 && resources.domains != [] && owner !in leases
              && (forall i, j :: 0 <= i < j < |resources.domains| ==> resources.domains[i] != resources.domains[j])
              && (forall i, j :: 0 <= i < j < |resources.units| ==> resources.units[i] != resources.units[j])
              && (forall i, j :: 0 <= i < j < |resources.exclusive| ==> resources.exclusive[i] != resources.exclusive[j])
    {
      if owner == 0 {
        return Err(InvalidIdentifier);
      }
      if Malformed(resources) {
        return Err(InvalidArgument);
      }
      if owner in leases {
        return Err(AlreadyExists);
      }
      waiting := waiting[call := Request(owner, resources)];
      r := Ok(());
    }

    /** A waiting call wakes up: it takes everything at once, or nothing. */
    method Wake(call: nat) returns (granted: bool)
      requires call in waiting
      modifies this
      ensures granted <==> old(IsAvailable(View(), waiting[call].resources))
      ensures View() == Woken(old(View()), call)
    {
      hide Claimed, Malformed, Free;
      var request := waiting[call];
      var resources := request.resources;
      var freeDomains := Available(resources.domains, domains);
      var freeUnits := Available(resources.units, units);
      var freeExclusive := Available(resources.exclusive, exclusive);
      granted := freeDomains && freeUnits && freeExclusive;
      if granted {
        var claimedDomains := Claim(resources.domains, request.owner, domains);
        var claimedUnits := Claim(resources.units, request.owner, units);
        var claimedExclusive := Claim(resources.exclusive, request.owner, exclusive);
        domains, units, exclusive := claimedDomains, claimedUnits, claimedExclusive;
        leases, waiting := Emplaced(leases, request.owner, resources), waiting - {call};
      }
    }

    /** The deadline of a waiting call passes: it leaves without having held anything. */
    method Expire(call: nat)
      requires call in waiting
      modifies this`waiting
      ensures View() == old(View()).(waiting := old(waiting) - {call})
    {
      waiting := waiting - {call};
    }

    /** Frees what the owner map says the owner holds. */
    method Release(owner: TransitionId)
      modifies this
      ensures View() == Released(old(View()), owner)
    {
      hide Unclaimed;
      if owner !in leases {
        return;
      }
      var keptDomains := ReleaseOwned(owner, domains);
      var keptUnits := ReleaseOwned(owner, units);
      var keptExclusive := ReleaseOwned(owner, exclusive);
      leases, domains, units, exclusive := leases - {owner}, keptDomains, keptUnits, keptExclusive;
    }

    /** Any history of the scheduler is one of the runs above. */
    method Serve(events: seq<SchedulerEvent>)
      requires View() == EMPTY_BOOK
      modifies this
      ensures View() == BookAfter(events)
    {
      hide Entered, Woken, Released, BookAfter;
      EmptyHistory();
      assert events[..0] == [];
      for i := 0 to |events|
        invariant View() == BookAfter(events[..i])
      {
        BookOneMore(events, i);
        match events[i] {
          case Enters(call, owner, resources) =>
            if call !in waiting { var _ := Enter(call, owner, resources); }
          case Wakes(call) =>
            if call in waiting { var _ := Wake(call); }
          case Expires(call) =>
            if call in waiting { Expire(call); } else { assert waiting - {call} == waiting; }
          case Releases(owner) => Release(owner);
        }
      }
      assert events[..|events|] == events;
    }
  }
}
