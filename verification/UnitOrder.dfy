/** Dependency ordering by depth-first search. */
module UnitOrder {
  import opened ExecutionModel
  import opened Sorting

  datatype Search = Search(visited: set<UnitId>, ordered: seq<UnitId>)

  function Dependencies(model: Model, unit: UnitId): seq<UnitId>
    requires unit in Units(model)
  {
    Units(model)[unit].dependencies
  }

  function Visit(model: Model, units: set<UnitId>, id: UnitId, search: Search): (r: Search)
    requires units <= Units(model).Keys
    ensures search.visited <= r.visited
    decreases units - search.visited, 0
  {
    if id !in units || id in search.visited then search
    else
      assert units - (search.visited + {id}) < units - search.visited by {
        assert id in units - search.visited;
      }
      var below := VisitAll(model, units, Sort(Dependencies(model, id)), search.(visited := search.visited + {id}));
      below.(ordered := below.ordered + [id])
  }

  function VisitAll(model: Model, units: set<UnitId>, ids: seq<UnitId>, search: Search): (r: Search)
    requires units <= Units(model).Keys
    ensures search.visited <= r.visited
    decreases units - search.visited, 1 + |ids|
  {
    if ids == [] then search
    else VisitAll(model, units, ids[1..], Visit(model, units, ids[0], search))
  }

  function Reversed<T>(items: seq<T>): (r: seq<T>)
    ensures |r| == |items| && forall i :: 0 <= i < |items| ==> r[i] == items[|items| - 1 - i]
  {
    seq(|items|, i requires 0 <= i < |items| => items[|items| - 1 - i])
  }

  ghost function OrderOf(model: Model, units: set<UnitId>, reverse: bool): (r: seq<UnitId>)
    requires units <= Units(model).Keys
  {
    var ordered := VisitAll(model, units, Enumerate(units), Search({}, [])).ordered;
    if reverse then Reversed(ordered) else ordered
  }

  /** Inside `units`, each unit comes after the units it depends on. */
  ghost predicate DependenciesFirst(model: Model, units: set<UnitId>, ordered: seq<UnitId>) {
    forall i, target :: 0 <= i < |ordered| && Edge(Units(model), ordered[i], target) && target in units
      ==> target in ordered[..i]
  }

  /** What the search keeps: `ordered` is a finished part, `stack` the units being
      visited, which form a path of the dependency graph. */
  ghost predicate SearchConsistent(model: Model, units: set<UnitId>, search: Search, stack: seq<UnitId>) {
    && SameElements(search.ordered + stack, search.visited)
    && search.visited <= units
    && Distinct(search.ordered)
    && (forall id <- stack :: id !in search.ordered)
    && IsPath(Units(model), stack)
    && DependenciesFirst(model, units, search.ordered)
  }

  lemma PushUnit(model: Model, units: set<UnitId>, search: Search, stack: seq<UnitId>, id: UnitId)
    requires SearchConsistent(model, units, search, stack) && id in units && id !in search.visited
    requires stack == [] || Edge(Units(model), stack[|stack| - 1], id)
    ensures SearchConsistent(model, units, search.(visited := search.visited + {id}), stack + [id])
  {
  }

  lemma PopUnit(model: Model, units: set<UnitId>, search: Search, stack: seq<UnitId>, id: UnitId)
    requires SearchConsistent(model, units, search, stack + [id])
    requires id !in stack
    requires forall target <- units :: Edge(Units(model), id, target) ==> target in search.ordered
    ensures SearchConsistent(model, units, search.(ordered := search.ordered + [id]), stack)
  {
    var ordered := search.ordered;
    assert id in stack + [id];
    assert forall i :: 0 <= i < |stack| ==> (stack + [id])[i] == stack[i];
    assert forall i :: 0 <= i < |ordered| ==> (ordered + [id])[..i] == ordered[..i];
    assert (ordered + [id])[..|ordered|] == ordered;
    assert forall x <- stack :: x in stack + [id];
    assert forall x <- ordered + stack + [id] :: x in ordered + (stack + [id]);
  }

  /** The dependency graph has no cycle and no dangling edge. */
  ghost predicate Orderable(model: Model) {
    Acyclic(Units(model)) && forall id <- Units(model) :: forall target <- Dependencies(model, id) :: target in Units(model)
  }

  lemma ValidatedIsOrderable(model: Model)
    requires WellFormed(model)
    ensures Orderable(model)
  {
  }

  lemma {:induction false} VisitKeeps(model: Model, units: set<UnitId>, id: UnitId, search: Search, stack: seq<UnitId>)
    requires Orderable(model) && units <= Units(model).Keys
    requires SearchConsistent(model, units, search, stack)
    requires id in Units(model) && (stack == [] || Edge(Units(model), stack[|stack| - 1], id))
    ensures SearchConsistent(model, units, Visit(model, units, id, search), stack)
    ensures search.ordered <= Visit(model, units, id, search).ordered
    ensures id in units ==> id in Visit(model, units, id, search).ordered
    decreases units - search.visited, 0
  {
    hide UnitIndex;
    if id !in units {
    } else if id in search.visited {
      if id in stack {
        var k :| 0 <= k < |stack| && stack[k] == id;
        BackEdgeClosesCycle(Units(model), stack, k, id);
        assert false;
      }
    } else {
      PushUnit(model, units, search, stack, id);
      var entered := search.(visited := search.visited + {id});
      assert units - entered.visited < units - search.visited by {
        assert id in units - search.visited;
      }
      var dependencies := Sort(Dependencies(model, id));
      var below := VisitAll(model, units, dependencies, entered);
      VisitAllKeeps(model, units, dependencies, entered, stack + [id]);
      PopUnit(model, units, below, stack, id);
    }
  }

  lemma {:induction false} VisitAllKeeps(
    model: Model, units: set<UnitId>, ids: seq<UnitId>, search: Search, stack: seq<UnitId>)
    requires Orderable(model) && units <= Units(model).Keys
    requires SearchConsistent(model, units, search, stack)
    requires forall id <- ids :: id in Units(model) && (stack == [] || Edge(Units(model), stack[|stack| - 1], id))
    ensures SearchConsistent(model, units, VisitAll(model, units, ids, search), stack)
    ensures search.ordered <= VisitAll(model, units, ids, search).ordered
    ensures forall id <- ids :: id in units ==> id in VisitAll(model, units, ids, search).ordered
    decreases units - search.visited, 1 + |ids|
  {
    hide UnitIndex, SearchConsistent, Acyclic;
    if ids != [] {
      VisitKeeps(model, units, ids[0], search, stack);
      var next := Visit(model, units, ids[0], search);
      VisitAllKeeps(model, units, ids[1..], next, stack);
      assert forall id <- ids :: id == ids[0] || id in ids[1..];
    }
  }

  /** A chain of dependencies inside `units` leads from one unit to the other. */
  ghost predicate Reaches(model: Model, units: set<UnitId>, source: UnitId, target: UnitId) {
    exists path: seq<UnitId> ::
      path != [] && path[0] == source && path[|path| - 1] == target && IsPath(Units(model), path) && forall x <- path :: x in units
  }

  lemma ReachesFurther(model: Model, units: set<UnitId>, id: UnitId, dependency: UnitId, target: UnitId)
    requires id in units && units <= Units(model).Keys && dependency in Dependencies(model, id)
    requires Reaches(model, units, dependency, target)
    ensures Reaches(model, units, id, target)
  {
    hide UnitIndex;
    var path: seq<UnitId> :| path != [] && path[0] == dependency && path[|path| - 1] == target &&
      IsPath(Units(model), path) && forall x <- path :: x in units;
    var longer := [id] + path;
    assert dependency in path;
    assert longer[0] == id && longer[|longer| - 1] == target && forall x <- longer :: x in units;
    forall i | 0 <= i < |longer| - 1
      ensures Edge(Units(model), longer[i], longer[i + 1])
    {
      if i > 0 {
        assert longer[i] == path[i - 1] && longer[i + 1] == path[i];
      }
    }
  }

  /** A visit adds nothing that does not lie below the unit visited. */
  lemma {:induction false} VisitOnlyReaches(model: Model, units: set<UnitId>, id: UnitId, search: Search, added: UnitId)
    requires units <= Units(model).Keys
    requires added in Visit(model, units, id, search).visited && added !in search.visited
    ensures Reaches(model, units, id, added)
    decreases units - search.visited, 0
  {
    hide UnitIndex, Reaches;
    var entered := search.(visited := search.visited + {id});
    assert units - entered.visited < units - search.visited by {
      assert id in units - search.visited;
    }
    if added == id {
      ReachesItself(model, units, id);
    } else {
      var dependency := VisitAllOnlyReaches(model, units, Sort(Dependencies(model, id)), entered, added);
      ReachesFurther(model, units, id, dependency, added);
    }
  }

  lemma ReachesItself(model: Model, units: set<UnitId>, id: UnitId)
    requires id in units
    ensures Reaches(model, units, id, id)
  {
    var path := [id];
    assert path[0] == id && IsPath(Units(model), path);
  }

  lemma {:induction false} VisitAllOnlyReaches(model: Model, units: set<UnitId>, ids: seq<UnitId>, search: Search, added: UnitId)
    returns (source: UnitId)
    requires units <= Units(model).Keys
    requires added in VisitAll(model, units, ids, search).visited && added !in search.visited
    ensures source in ids && Reaches(model, units, source, added)
    decreases units - search.visited, 1 + |ids|
  {
    hide UnitIndex, Reaches;
    var next := Visit(model, units, ids[0], search);
    if added in next.visited {
      VisitOnlyReaches(model, units, ids[0], search, added);
      source := ids[0];
    } else {
      source := VisitAllOnlyReaches(model, units, ids[1..], next, added);
    }
  }

  /** Inside `units`, each unit comes after the units that depend on it. */
  ghost predicate DependentsFirst(model: Model, units: set<UnitId>, ordered: seq<UnitId>) {
    forall i, source :: 0 <= i < |ordered| && Edge(Units(model), source, ordered[i]) && source in units
      ==> source in ordered[..i]
  }

  lemma ReversalSwapsDirection(model: Model, units: set<UnitId>, ordered: seq<UnitId>)
    requires Distinct(ordered) && SameElements(ordered, units) && DependenciesFirst(model, units, ordered)
    ensures Distinct(Reversed(ordered)) && SameElements(Reversed(ordered), units)
    ensures DependentsFirst(model, units, Reversed(ordered))
  {
    hide UnitIndex;
    var r := Reversed(ordered);
    var n := |ordered|;
    forall x <- units ensures x in r {
      var k :| 0 <= k < n && ordered[k] == x;
      assert r[n - 1 - k] == x;
    }
    forall i, source | 0 <= i < n && Edge(Units(model), source, r[i]) && source in units
      ensures source in r[..i]
    {
      var k :| 0 <= k < n && ordered[k] == source;
      assert Edge(Units(model), ordered[k], ordered[n - 1 - i]) && ordered[n - 1 - i] in units;
      var j :| 0 <= j < k && ordered[j] == ordered[n - 1 - i];
      assert j == n - 1 - i;
      assert r[n - 1 - k] == source && r[..i][n - 1 - k] == source;
    }
  }

  /** Ordering is exact and topological: each unit of the set appears once, after
      its dependencies, or before them when the order is reversed. */
  lemma OrderIsTopological(model: Model, units: set<UnitId>)
    requires WellFormed(model) && units <= Units(model).Keys
    ensures Distinct(OrderOf(model, units, false)) && SameElements(OrderOf(model, units, false), units)
    ensures DependenciesFirst(model, units, OrderOf(model, units, false))
    ensures Distinct(OrderOf(model, units, true)) && SameElements(OrderOf(model, units, true), units)
    ensures DependentsFirst(model, units, OrderOf(model, units, true))
  {
    hide WellFormed, UnitIndex, Acyclic;
    ValidatedIsOrderable(model);
    VisitAllKeeps(model, units, Enumerate(units), Search({}, []), []);
    var search := VisitAll(model, units, Enumerate(units), Search({}, []));
    assert search.ordered + [] == search.ordered;
    ReversalSwapsDirection(model, units, search.ordered);
  }

  /** The recursive visit.  The search record is the state it shares with its caller. */
  method VisitUnit(model: Model, units: set<UnitId>, id: UnitId, search: Search) returns (r: Search)
    requires units <= Units(model).Keys
    ensures r == Visit(model, units, id, search)
    decreases units - search.visited, 0
  {
    if id !in units || id in search.visited {
      return search;
    }
    var entered := search.(visited := search.visited + {id});
    assert units - entered.visited < units - search.visited by {
      assert id in units - search.visited;
    }
    var dependencies := Sort(Dependencies(model, id));
    r := entered;
    for i := 0 to |dependencies|
      invariant entered.visited <= r.visited
      invariant VisitAll(model, units, dependencies[i..], r) == VisitAll(model, units, dependencies, entered)
    {
      r := VisitUnit(model, units, dependencies[i], r);
    }
    r := r.(ordered := r.ordered + [id]);
  }

  /** The order is a function of the set of units, whatever order the set is walked in. */
  method Order(model: Model, units: set<UnitId>, reverse: bool) returns (ordered: seq<UnitId>)
    requires units <= Units(model).Keys
    ensures ordered == OrderOf(model, units, reverse)
  {
    var stable := SortedWalk(units);
    var search := Search({}, []);
    for i := 0 to |stable|
      invariant VisitAll(model, units, stable[i..], search) == VisitAll(model, units, stable, Search({}, []))
    {
      search := VisitUnit(model, units, stable[i], search);
    }
    ordered := if reverse then Reversed(search.ordered) else search.ordered;
  }
}
