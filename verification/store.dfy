/** The operations and productions as stored records, and the class methods of operation.py
    that change them: `Operation.create`, the `wait` and `run` buttons, `Operation.done`,
    `Production.run` and `Production.done`. The operation with id `i` is `operations[i]`. */
module Store {
  import opened Wrappers
  import opened Records
  import opened OperationWorkflow
  import opened Costs
  import opened OutputPricing
  import opened ProductionWorkflow

  /** Every operation belongs to a stored production (the field is required). */
  predicate ReferencesExist(ops: seq<Operation>, prods: map<ProductionId, Production>) {
    forall i :: 0 <= i < |ops| ==> ops[i].production in prods
  }

  /** A production that is done has only done operations. */
  predicate DoneProductionsComplete(ops: seq<Operation>, prods: map<ProductionId, Production>) {
    forall i :: 0 <= i < |ops| && ops[i].production in prods && prods[ops[i].production].state.Done? ==>
      ops[i].state.Done?
  }

  /** The ids of the operations of production `pid` (the `operations` One2Many), by id. */
  function OperationsOf(ops: seq<Operation>, pid: ProductionId): (ids: seq<OperationId>)
    ensures forall k :: 0 <= k < |ids| ==> ids[k] < |ops| && ops[ids[k]].production == pid
    ensures forall i :: 0 <= i < |ops| && ops[i].production == pid ==> i in ids
    ensures forall k, m :: 0 <= k < m < |ids| ==> ids[k] < ids[m]
  {
    if ops == [] then []
    else
      var rest := OperationsOf(ops[..|ops| - 1], pid);
      if ops[|ops| - 1].production == pid then rest + [|ops| - 1] else rest
  }

  /** Some operation of the productions `pids` is not done. */
  predicate HasPending(ops: seq<Operation>, pids: set<ProductionId>) {
    exists i :: 0 <= i < |ops| && ops[i].production in pids && !ops[i].state.Done?
  }

  /** Some production of `pids` has outputs whose quantities add up to zero. */
  predicate HasZeroOutput(prods: map<ProductionId, Production>, pids: set<ProductionId>) {
    exists p :: p in pids && p in prods && TotalQuantity(prods[p].outputs) == 0.0
  }

  /** The productions after `Production.done` went through for `pids`. */
  function FinishAll(prods: map<ProductionId, Production>, pids: set<ProductionId>, ops: seq<Operation>,
                     digits: nat, convert: Converter): map<ProductionId, Production>
    requires !HasZeroOutput(prods, pids)
  {
    map p | p in prods :: if p in pids then Finished(prods[p], p, ops, digits, convert) else prods[p]
  }

  /** The distinct productions of the given operations. */
  function ProductionsOf(ops: seq<Operation>, ids: seq<OperationId>): set<ProductionId>
    requires forall k :: 0 <= k < |ids| ==> ids[k] < |ops|
  {
    set k | 0 <= k < |ids| :: ops[ids[k]].production
  }

  /** The creation guard is exactly what keeps done productions complete: adding new
      operations keeps every done production's operations done if and only if none of the new
      operations belongs to a done production. */
  lemma CreationGuardIsExact(ops: seq<Operation>, prods: map<ProductionId, Production>, vlist: seq<OperationValues>)
    requires DoneProductionsComplete(ops, prods)
    requires forall k :: 0 <= k < |vlist| ==> vlist[k].production in prods
    ensures DoneProductionsComplete(ops + NewOperations(vlist), prods) <==>
      !exists k :: 0 <= k < |vlist| && prods[vlist[k].production].state.Done?
  {
    var all := ops + NewOperations(vlist);
    if exists k :: 0 <= k < |vlist| && prods[vlist[k].production].state.Done? {
      var k :| 0 <= k < |vlist| && prods[vlist[k].production].state.Done?;
      assert all[|ops| + k] == NewOperation(vlist[k]);
      assert !all[|ops| + k].state.Done?;
    } else {
      forall n | 0 <= n < |all| && all[n].production in prods
        ensures prods[all[n].production].state.Done? ==> all[n].state.Done?
      {
        if n >= |ops| {
          assert all[n] == NewOperation(vlist[n - |ops|]);
        }
      }
    }
  }

  /** `Operation.done` only changes states, so no production's cost moves. */
  lemma MarkedDoneKeepsCosts(ops: seq<Operation>, ids: seq<OperationId>, pid: ProductionId, convert: Converter)
    ensures OperationsCost(MarkedDone(ops, ids), pid, convert) == OperationsCost(ops, pid, convert)
  {
    var marked := MarkedDone(ops, ids);
    assert OnlyStatesDiffer(marked, ops) by {
      forall i | 0 <= i < |ops|
        ensures marked[i].(state := OperationState.Planned) == ops[i].(state := OperationState.Planned)
      {
      }
    }
    StatesDoNotCost(marked, ops, pid, convert);
  }

  /** Once every operation of the productions concerned is done or among those being done,
      nothing is pending, so `Operation.done` goes on to finish the productions. */
  lemma DoneOfEveryOperationClearsPending(ops: seq<Operation>, ids: seq<OperationId>)
    requires forall k :: 0 <= k < |ids| ==> ids[k] < |ops|
    requires forall i :: 0 <= i < |ops| && ops[i].production in ProductionsOf(ops, ids) ==> i in ids || ops[i].state.Done?
    ensures !HasPending(MarkedDone(ops, ids), ProductionsOf(ops, ids))
  {
  }

  class Database {
    var operations: seq<Operation>
    var productions: map<ProductionId, Production>

    ghost predicate Valid()
      reads this
    {
      ReferencesExist(operations, productions) && DoneProductionsComplete(operations, productions)
    }

    constructor (productions: map<ProductionId, Production>)
      ensures Valid() && operations == [] && this.productions == productions
    {
      operations := [];
      this.productions := productions;
    }

    /** `Operation.create`: refuses the whole batch when one of the referenced productions is
        done, and otherwise stores every new operation. Like the source, it hands no records back;
        the new operations take the next ids. */
    method Create(vlist: seq<OperationValues>) returns (outcome: Outcome<Error>)
      requires Valid()
      requires forall k :: 0 <= k < |vlist| ==> vlist[k].production in productions
      modifies this
      ensures Valid() && productions == old(productions)
      ensures outcome.Fail? <==> exists k :: 0 <= k < |vlist| && productions[vlist[k].production].state.Done?
      ensures outcome.Fail? ==> operations == old(operations)
      ensures outcome.Fail? ==>
        (outcome.error.InvalidProductionState? &&
         outcome.error.production in productions && productions[outcome.error.production].state.Done? &&
         exists k :: 0 <= k < |vlist| && vlist[k].production == outcome.error.production)
      ensures outcome.Pass? ==> operations == old(operations) + NewOperations(vlist)
    {
      var productionIds: seq<ProductionId> := [];
      var i := 0;
      while i < |vlist|
        invariant 0 <= i <= |vlist|
        invariant |productionIds| == i
        invariant forall k :: 0 <= k < i ==> productionIds[k] == vlist[k].production
      {
        productionIds := productionIds + [vlist[i].production];
        i := i + 1;
      }
      // the search for a referenced production in a state that refuses new operations
      var j := 0;
      while j < |productionIds|
        invariant 0 <= j <= |productionIds|
        invariant forall k :: 0 <= k < j ==> !productions[productionIds[k]].state.Done?
      {
        if productions[productionIds[j]].state.Done? {
          return Fail(InvalidProductionState(productionIds[j]));
        }
        j := j + 1;
      }
      var created := NewOperations(vlist);
      ghost var before := operations;
      operations := operations + created;
      forall n | 0 <= n < |operations|
        ensures operations[n].production in productions
        ensures productions[operations[n].production].state.Done? ==> operations[n].state.Done?
      {
        if n >= |before| {
          assert operations[n] == NewOperation(vlist[n - |before|]);
        }
      }
      return Pass;
    }

    /** Saving a new tracking line of operation `id` (an `OperationTracking` record, whose
        operation is required): the line joins the operation's lines and nothing else changes.
        By `AddedLineCost`, the cost of the operation's production grows by the line's cost. */
    method AddLine(id: OperationId, line: TrackingLine)
      requires Valid()
      requires id < |operations|
      modifies this
      ensures Valid() && productions == old(productions)
      ensures operations == old(operations)[id := old(operations)[id].(lines := old(operations)[id].lines + [line])]
    {
      operations := operations[id := operations[id].(lines := operations[id].lines + [line])];
    }

    /** The framework's transition to `target` on the given operations: each moves when a
        declared edge leads there from its state, and keeps its state otherwise. */
    method Transition(ids: seq<OperationId>, target: OperationState)
      requires Valid()
      requires forall k :: 0 <= k < |ids| ==> ids[k] < |operations|
      modifies this
      ensures Valid() && productions == old(productions)
      ensures OnlyStatesDiffer(old(operations), operations)
      ensures |operations| == |old(operations)|
      ensures forall i :: 0 <= i < |operations| ==>
        operations[i] == if i in ids then old(operations)[i].(state := Step(old(operations)[i].state, target))
                         else old(operations)[i]
    {
      var k := 0;
      while k < |ids|
        invariant 0 <= k <= |ids|
        invariant productions == old(productions)
        invariant |operations| == |old(operations)|
        invariant forall i :: 0 <= i < |operations| ==>
          operations[i] == if i in ids[..k] then old(operations)[i].(state := Step(old(operations)[i].state, target))
                           else old(operations)[i]
      {
        var id := ids[k];
        StepIdempotent(old(operations)[id].state, target);
        operations := operations[id := operations[id].(state := Step(operations[id].state, target))];
        assert ids[..k + 1] == ids[..k] + [id];
        k := k + 1;
      }
      assert ids[..k] == ids;
      forall i | 0 <= i < |operations| && productions[operations[i].production].state.Done?
        ensures operations[i].state.Done?
      {
        assert old(operations)[i].state.Done?;
      }
    }

    /** The `wait` button. */
    method Wait(ids: seq<OperationId>)
      requires Valid()
      requires forall k :: 0 <= k < |ids| ==> ids[k] < |operations|
      modifies this
      ensures Valid() && productions == old(productions)
      ensures OnlyStatesDiffer(old(operations), operations)
      ensures |operations| == |old(operations)|
      ensures forall i :: 0 <= i < |operations| ==>
        operations[i] == if i in ids then old(operations)[i].(state := Step(old(operations)[i].state, OperationState.Waiting))
                         else old(operations)[i]
      ensures forall i :: 0 <= i < |operations| && i in ids ==>
        (operations[i].state.Done? <==> old(operations)[i].state.Done?) &&
        (operations[i].state.Waiting? <==> !old(operations)[i].state.Done?)
    {
      Transition(ids, OperationState.Waiting);
      forall i | 0 <= i < |operations| && i in ids
        ensures operations[i].state == if old(operations)[i].state.Done? then OperationState.Done else OperationState.Waiting
      {
        WaitOutcome(old(operations)[i].state);
      }
    }

    /** The `run` button. */
    method Run(ids: seq<OperationId>)
      requires Valid()
      requires forall k :: 0 <= k < |ids| ==> ids[k] < |operations|
      modifies this
      ensures Valid() && productions == old(productions)
      ensures OnlyStatesDiffer(old(operations), operations)
      ensures |operations| == |old(operations)|
      ensures forall i :: 0 <= i < |operations| ==>
        operations[i] == if i in ids then old(operations)[i].(state := Step(old(operations)[i].state, OperationState.Running))
                         else old(operations)[i]
      ensures forall i :: 0 <= i < |operations| && i in ids ==>
        (operations[i].state.Running? <==> old(operations)[i].state.Waiting? || old(operations)[i].state.Running?)
    {
      Transition(ids, OperationState.Running);
      forall i | 0 <= i < |operations| && i in ids
        ensures operations[i].state == if old(operations)[i].state.Waiting? then OperationState.Running else old(operations)[i].state
      {
        RunOutcome(old(operations)[i].state);
      }
    }

    /** The production module's `run`, as far as this module relies on it: the assigned
        productions among the given ones start running, and every other production keeps its
        state, so a done production stays done. */
    method StartProductions(pids: seq<ProductionId>)
      requires Valid()
      requires forall k :: 0 <= k < |pids| ==> pids[k] in productions
      modifies this
      ensures Valid() && operations == old(operations)
      ensures productions == map p | p in old(productions) ::
        if p in pids then old(productions)[p].(state := BaseStep(old(productions)[p].state, ProductionState.Running)) else old(productions)[p]
    {
      var k := 0;
      while k < |pids|
        invariant 0 <= k <= |pids|
        invariant operations == old(operations)
        invariant productions.Keys == old(productions).Keys
        invariant forall p :: p in productions ==>
          productions[p] == if p in pids[..k] then old(productions)[p].(state := BaseStep(old(productions)[p].state, ProductionState.Running)) else old(productions)[p]
      {
        productions := productions[pids[k] := productions[pids[k]].(state := BaseStep(productions[pids[k]].state, ProductionState.Running))];
        assert pids[..k + 1] == pids[..k] + [pids[k]];
        k := k + 1;
      }
      assert pids[..k] == pids;
      forall n | 0 <= n < |operations|
        ensures operations[n].production in productions
        ensures productions[operations[n].production].state.Done? ==> operations[n].state.Done?
      {
        assert operations[n].production in old(productions);
      }
    }

    /** `Production.run`: the production module starts the assigned productions, then every
        operation of the given productions goes through `wait`, whether or not its production
        started, so none of them is left planned or running. */
    method ProductionRun(pids: seq<ProductionId>)
      requires Valid()
      requires forall k :: 0 <= k < |pids| ==> pids[k] in productions
      modifies this
      ensures Valid()
      ensures productions == map p | p in old(productions) ::
        if p in pids then old(productions)[p].(state := BaseStep(old(productions)[p].state, ProductionState.Running)) else old(productions)[p]
      ensures OnlyStatesDiffer(old(operations), operations)
      ensures |operations| == |old(operations)|
      ensures forall i :: 0 <= i < |operations| ==>
        operations[i] == if old(operations)[i].production in pids
                         then old(operations)[i].(state := Step(old(operations)[i].state, OperationState.Waiting))
                         else old(operations)[i]
      ensures forall i :: 0 <= i < |operations| && operations[i].production in pids ==>
        !operations[i].state.Planned? && !operations[i].state.Running?
    {
      StartProductions(pids);
      // the operations of every production, gathered
      var ids: seq<OperationId> := [];
      var k := 0;
      while k < |pids|
        invariant 0 <= k <= |pids|
        invariant forall m :: 0 <= m < |ids| ==> ids[m] < |operations|
        invariant forall i :: 0 <= i < |operations| ==> (i in ids <==> operations[i].production in pids[..k])
      {
        var mine := OperationsOf(operations, pids[k]);
        ids := ids + mine;
        assert pids[..k + 1] == pids[..k] + [pids[k]];
        k := k + 1;
      }
      assert pids[..k] == pids;
      if ids != [] {
        Wait(ids);
      }
      forall i | 0 <= i < |operations| && operations[i].production in pids
        ensures !operations[i].state.Planned? && !operations[i].state.Running?
      {
        WaitOutcome(old(operations)[i].state);
      }
    }

    /** `Production.done`: refuses while an operation of the productions is not done (or, when
        called from `Operation.done`, returns quietly), refuses a production whose output
        quantity is zero, and otherwise raises every output's unit price by the production's
        share of operation cost, after which the production module's `done` moves the running
        ones to done. */
    method ProductionDone(pids: set<ProductionId>, fromDoneOperation: bool, costDigits: nat, convert: Converter)
      returns (outcome: Outcome<Error>)
      requires Valid()
      requires pids <= productions.Keys
      modifies this
      ensures Valid() && operations == old(operations)
      ensures HasPending(operations, pids) && fromDoneOperation ==>
        outcome.Pass? && productions == old(productions)
      ensures HasPending(operations, pids) && !fromDoneOperation ==>
        outcome.Fail? && productions == old(productions) &&
        outcome.error.PendingOperations? && outcome.error.operation < |operations| &&
        operations[outcome.error.operation].production == outcome.error.production &&
        outcome.error.production in pids && !operations[outcome.error.operation].state.Done?
      ensures !HasPending(operations, pids) && HasZeroOutput(old(productions), pids) ==>
        outcome.Fail? && productions == old(productions) &&
        outcome.error.DivisionByZero? && outcome.error.production in pids &&
        TotalQuantity(productions[outcome.error.production].outputs) == 0.0
      ensures !HasPending(operations, pids) && !HasZeroOutput(old(productions), pids) ==>
        outcome.Pass? && productions == FinishAll(old(productions), pids, operations, costDigits, convert)
    {
      // the search for an operation of these productions that is not done
      var i := 0;
      while i < |operations|
        invariant 0 <= i <= |operations|
        invariant forall k :: 0 <= k < i && operations[k].production in pids ==> operations[k].state.Done?
      {
        if operations[i].production in pids && !operations[i].state.Done? {
          if fromDoneOperation {
            return Pass;
          }
          return Fail(PendingOperations(operations[i].production, i));
        }
        i := i + 1;
      }
      // a zero output quantity makes the share a division by zero and rolls everything back
      var todo := pids;
      while todo != {}
        invariant todo <= pids
        invariant productions == old(productions) && operations == old(operations)
        invariant forall p :: p in pids - todo ==> TotalQuantity(productions[p].outputs) != 0.0
        decreases todo
      {
        var p :| p in todo;
        if TotalQuantity(productions[p].outputs) == 0.0 {
          return Fail(DivisionByZero(p));
        }
        todo := todo - {p};
      }
      assert !HasZeroOutput(productions, pids);
      todo := pids;
      while todo != {}
        invariant todo <= pids
        invariant operations == old(operations)
        invariant productions.Keys == old(productions).Keys
        invariant forall p :: p in productions ==>
          productions[p] == if p in pids - todo then Finished(old(productions)[p], p, operations, costDigits, convert)
                            else old(productions)[p]
        decreases todo
      {
        var p :| p in todo;
        var operationCost := OperationsCost(operations, p, convert);
        var totalQuantity := TotalQuantity(productions[p].outputs);
        var share := AddedUnitPrice(operationCost, totalQuantity, costDigits);
        var raised := RaiseUnitPrices(productions[p].outputs, share);
        // the outputs are saved with their new prices; the production module's done moves the state
        productions := productions[p := productions[p].(state := BaseStep(productions[p].state, ProductionState.Done), outputs := raised)];
        todo := todo - {p};
      }
      forall n | 0 <= n < |operations|
        ensures operations[n].production in productions
        ensures productions[operations[n].production].state.Done? ==> operations[n].state.Done?
      {
        assert operations[n].production in old(productions);
      }
      return Pass;
    }

    /** `Operation.done`: writes done on every given operation whatever its state, then runs
        `Production.done` once on the set of their productions as called from here. An error
        there rolls the whole call back. */
    method OperationDone(ids: seq<OperationId>, costDigits: nat, convert: Converter) returns (outcome: Outcome<Error>)
      requires Valid()
      requires forall k :: 0 <= k < |ids| ==> ids[k] < |operations|
      modifies this
      ensures Valid()
      ensures outcome.Fail? ==> operations == old(operations) && productions == old(productions)
      ensures outcome.Pass? ==> operations == MarkedDone(old(operations), ids)
      ensures HasPending(MarkedDone(old(operations), ids), ProductionsOf(old(operations), ids)) ==>
        outcome.Pass? && productions == old(productions)
      ensures !HasPending(MarkedDone(old(operations), ids), ProductionsOf(old(operations), ids)) &&
              HasZeroOutput(old(productions), ProductionsOf(old(operations), ids)) ==>
        outcome.Fail? && outcome.error.DivisionByZero?
      ensures !HasPending(MarkedDone(old(operations), ids), ProductionsOf(old(operations), ids)) &&
              !HasZeroOutput(old(productions), ProductionsOf(old(operations), ids)) ==>
        outcome.Pass? &&
        productions == FinishAll(old(productions), ProductionsOf(old(operations), ids),
                                 MarkedDone(old(operations), ids), costDigits, convert)
    {
      var saved := operations;
      // the productions of the operations, as a set
      var pids: set<ProductionId> := {};
      var k := 0;
      while k < |ids|
        invariant 0 <= k <= |ids|
        invariant pids == set m | 0 <= m < k :: operations[ids[m]].production
      {
        pids := pids + {operations[ids[k]].production};
        k := k + 1;
      }
      assert pids == ProductionsOf(operations, ids);
      // write done on every operation
      k := 0;
      while k < |ids|
        invariant 0 <= k <= |ids|
        invariant productions == old(productions)
        invariant operations == MarkedDone(saved, ids[..k])
      {
        operations := operations[ids[k] := operations[ids[k]].(state := OperationState.Done)];
        assert ids[..k + 1] == ids[..k] + [ids[k]];
        k := k + 1;
      }
      assert ids[..k] == ids;
      outcome := ProductionDone(pids, true, costDigits, convert);
      if outcome.Fail? {
        operations := saved;
      }
    }
  }
}
