/** The depth-first search that reports dependency cycles. */
module CycleInspection {
  import opened ExecutionModel

  datatype Visit = Active | Complete  // an unseen unit has no entry

  /** Every edge out of a finished unit leads to a unit that finished earlier. */
  ghost predicate FinishedInOrder(index: map<UnitId, UnitDefinition>, finished: seq<UnitId>) {
    forall i, target :: 0 <= i < |finished| && Edge(index, finished[i], target) ==> target in finished[..i]
  }

  lemma {:induction false} PathDescends(
    index: map<UnitId, UnitDefinition>, finished: seq<UnitId>, path: seq<UnitId>, bound: nat)
    requires FinishedInOrder(index, finished)
    requires |path| >= 1 && IsPath(index, path)
    requires bound <= |finished| && path[0] in finished[..bound]
    ensures |path| <= bound && path[|path| - 1] in finished[..bound - (|path| - 1)]
  {
    if |path| > 1 {
      var i :| 0 <= i < bound && finished[i] == path[0];
      assert Edge(index, path[0], path[1]);
      assert path[1] in finished[..i] && finished[..i] <= finished[..bound - 1];
      assert IsPath(index, path[1..]) by {
        forall k | 0 <= k < |path[1..]| - 1 ensures Edge(index, path[1..][k], path[1..][k + 1]) {
          assert path[1..][k] == path[k + 1] && path[1..][k + 1] == path[k + 2];
        }
      }
      PathDescends(index, finished, path[1..], bound - 1);
    }
  }

  lemma {:induction false} NoCycleBelow(
    index: map<UnitId, UnitDefinition>, finished: seq<UnitId>, path: seq<UnitId>, bound: nat)
    requires FinishedInOrder(index, finished) && IsCycle(index, path) && bound <= |finished|
    ensures path[0] !in finished[..bound]
  {
    if path[0] in finished[..bound] {
      PathDescends(index, finished, path, bound);
      NoCycleBelow(index, finished, path, bound - (|path| - 1));
    }
  }

  lemma FinishedGraphIsAcyclic(index: map<UnitId, UnitDefinition>, finished: seq<UnitId>)
    requires FinishedInOrder(index, finished)
    requires forall id <- index :: id in finished
    ensures Acyclic(index)
  {
    forall path: seq<UnitId> | IsCycle(index, path)
      ensures false
    {
      assert Edge(index, path[0], path[1]);
      assert finished[..|finished|] == finished;
      NoCycleBelow(index, finished, path, |finished|);
    }
  }

  /** The stack is a path of distinct units, and holds exactly the active ones. */
  ghost predicate StackConsistent(
    index: map<UnitId, UnitDefinition>, visits: map<UnitId, Visit>, stack: seq<UnitId>)
  {
    && visits.Keys <= index.Keys
    && IsPath(index, stack) && Distinct(stack)
    && (forall id :: id in stack <==> id in visits && visits[id] == Active)
  }

  ghost predicate FinishedConsistent(
    index: map<UnitId, UnitDefinition>, visits: map<UnitId, Visit>, finished: seq<UnitId>, clean: bool)
  {
    && (forall id :: id in finished <==> id in visits && visits[id] == Complete)
    && (clean ==> FinishedInOrder(index, finished))
  }

  lemma Enter(index: map<UnitId, UnitDefinition>, visits: map<UnitId, Visit>, stack: seq<UnitId>,
              finished: seq<UnitId>, clean: bool, id: UnitId)
    requires StackConsistent(index, visits, stack) && FinishedConsistent(index, visits, finished, clean)
    requires id in index && id !in visits
    requires stack == [] || Edge(index, stack[|stack| - 1], id)
    ensures StackConsistent(index, visits[id := Active], stack + [id])
    ensures FinishedConsistent(index, visits[id := Active], finished, clean)
  {
  }

  lemma Leave(index: map<UnitId, UnitDefinition>, visits: map<UnitId, Visit>, stack: seq<UnitId>,
              finished: seq<UnitId>, clean: bool, id: UnitId)
    requires StackConsistent(index, visits, stack + [id]) && FinishedConsistent(index, visits, finished, clean)
    requires clean ==> forall target :: Edge(index, id, target) ==> target in finished
    ensures StackConsistent(index, visits[id := Complete], stack)
    ensures FinishedConsistent(index, visits[id := Complete], finished + [id], clean)
  {
    assert (stack + [id])[|stack|] == id;
    assert forall i :: 0 <= i < |stack| ==> (stack + [id])[i] == stack[i];
    assert forall i :: 0 <= i < |finished| ==> (finished + [id])[..i] == finished[..i];
    assert (finished + [id])[..|finished|] == finished;
  }

  lemma CycleIsNotAcyclic(index: map<UnitId, UnitDefinition>, path: seq<UnitId>)
    requires IsCycle(index, path)
    ensures !Acyclic(index)
  {
  }

  class CycleInspector {
    const index: map<UnitId, UnitDefinition>
    var visits: map<UnitId, Visit>
    var stack: seq<UnitId>
    var reported: set<UnitId>
    var issues: seq<seq<UnitId>>  // each reported cycle, first unit repeated at the end
    ghost var finished: seq<UnitId>

    constructor (index: map<UnitId, UnitDefinition>)
      requires forall id <- index :: index[id].id == id
      ensures this.index == index && Valid()
      ensures visits == map[] && stack == [] && issues == []
    {
      this.index := index;
      visits, stack, reported, issues, finished := map[], [], {}, [], [];
    }

    ghost predicate Valid()
      reads this
    {
      && (forall id <- index :: index[id].id == id)
      && StackConsistent(index, visits, stack)
      && FinishedConsistent(index, visits, finished, issues == [])
      && (issues == [] <==> reported == {})
      && (forall issue <- issues :: IsCycle(index, issue))
    }

    ghost predicate Keeps(earlier: map<UnitId, Visit>)
      reads this
    {
      forall id <- earlier :: id in visits && visits[id] == earlier[id]
    }

    /** The search below one unit: it completes the unit, keeps the stack and the
        verdict on every unit seen before, and only adds genuine cycles. */
    method VisitUnit(unit: UnitDefinition)
      requires Valid()
      requires unit.id in index && index[unit.id] == unit && unit.id !in visits
      requires stack == [] || Edge(index, stack[|stack| - 1], unit.id)
      modifies this
      ensures Valid() && stack == old(stack) && old(issues) <= issues
      ensures unit.id in visits && visits[unit.id] == Complete
      ensures Keeps(old(visits)) && old(finished) <= finished
      decreases index.Keys - visits.Keys, 0
    {
      hide StackConsistent, FinishedConsistent;
      Enter(index, visits, stack, finished, issues == [], unit.id);
      visits, stack := visits[unit.id := Active], stack + [unit.id];
      assert index.Keys - visits.Keys < index.Keys - old(visits.Keys) by {
        assert unit.id in index.Keys - old(visits.Keys);
      }
      VisitDependencies(unit);
      assert forall target :: Edge(index, unit.id, target) ==> target in unit.dependencies;
      Leave(index, visits, old(stack), finished, issues == [], unit.id);
      assert stack[..|stack| - 1] == old(stack);
      stack, visits, finished := stack[..|stack| - 1], visits[unit.id := Complete], finished + [unit.id];
    }

    /** The loop over the dependencies of the unit on top of the stack. */
    method VisitDependencies(unit: UnitDefinition)
      requires Valid()
      requires unit.id in index && index[unit.id] == unit && stack != [] && stack[|stack| - 1] == unit.id
      modifies this
      ensures Valid() && stack == old(stack) && old(issues) <= issues
      ensures Keeps(old(visits)) && old(finished) <= finished
      ensures issues == [] ==> forall target <- unit.dependencies :: target in index ==> target in finished
      decreases index.Keys - visits.Keys, 2
    {
      for i := 0 to |unit.dependencies|
        invariant Valid() && stack == old(stack) && old(issues) <= issues
        invariant Keeps(old(visits)) && old(finished) <= finished
        invariant issues == [] ==> forall target <- unit.dependencies[..i] :: target in index ==> target in finished
      {
        assert unit.dependencies[..i + 1] == unit.dependencies[..i] + [unit.dependencies[i]];
        if unit.dependencies[i] in index {
          VisitDependency(unit, unit.dependencies[i]);
        }
      }
      assert unit.dependencies[..|unit.dependencies|] == unit.dependencies;
    }

    /** One turn of the loop over the dependencies of the unit on top of the stack. */
    method VisitDependency(unit: UnitDefinition, dependency: UnitId)
      requires Valid()
      requires stack != [] && stack[|stack| - 1] == unit.id && Edge(index, unit.id, dependency)
      modifies this
      ensures Valid() && stack == old(stack) && old(issues) <= issues
      ensures Keeps(old(visits)) && old(finished) <= finished
      ensures issues == [] ==> dependency in finished
      decreases index.Keys - visits.Keys, 1
    {
      if dependency !in visits {
        VisitUnit(index[dependency]);
      } else if visits[dependency] == Active && dependency !in reported {
        reported := reported + {dependency};
        var k := FirstIndex(stack, dependency);
        BackEdgeClosesCycle(index, stack, k, dependency);
        issues := issues + [stack[k..] + [dependency]];
      }
    }

    static method FirstIndex(items: seq<UnitId>, item: UnitId) returns (k: nat)
      requires item in items
      ensures k < |items| && items[k] == item && item !in items[..k]
    {
      k := 0;
      while items[k] != item
        invariant k < |items| && item !in items[..k]
        invariant item in items[k..]
        decreases |items| - k
      {
        assert items[k..] == [items[k]] + items[k + 1..];
        assert items[..k + 1] == items[..k] + [items[k]];
        k := k + 1;
      }
    }
  }

  lemma FirstDefinitionWins(units: seq<UnitDefinition>, i: nat)
    requires i < |units|
    requires forall k :: 0 <= k < i ==> units[k].id != units[i].id
    ensures UnitIndex(units)[units[i].id] == units[i]
  {
    if i < |units| - 1 {
      FirstDefinitionWins(units[..|units| - 1], i);
    }
  }

  /** A cycle is reported if and only if the dependency graph has one, and every
      reported stack segment is a cycle of the graph.  No assumption is made on
      the model: duplicate identifiers and unknown dependencies are allowed. */
  method InspectDependencyCycles(model: Model) returns (issues: seq<seq<UnitId>>)
    ensures issues == [] <==> Acyclic(Units(model))
    ensures forall issue <- issues :: IsCycle(Units(model), issue)
  {
    hide FinishedInOrder, IsCycle, IsPath, Acyclic, UnitIndex;
    var index := Units(model);
    var inspector := new CycleInspector(index);
    for i := 0 to |model.units|
      invariant fresh(inspector) && inspector.index == index
      invariant inspector.Valid() && inspector.stack == []
      invariant forall k :: 0 <= k < i ==> model.units[k].id in inspector.finished
    {
      if model.units[i].id !in inspector.visits {
        FirstDefinitionWins(model.units, i);
        inspector.VisitUnit(model.units[i]);
      }
    }
    issues := inspector.issues;
    if issues == [] {
      FinishedGraphIsAcyclic(index, inspector.finished);
    } else {
      CycleIsNotAcyclic(index, issues[0]);
    }
  }
}
