/** `Production.update_operations`: the change a production's operations undergo when a route
    is chosen, as the records of the change the client applies. */
module Routes {
  import opened Wrappers
  import opened Records

  /** One entry of the change's `add` list: the values of a new operation, given by ids. */
  datatype AddedOperation = AddedOperation(
    sequence: Option<int>,
    workCenterCategory: nat,
    workCenter: Option<nat>,
    operationType: Option<OperationTypeId>,
    routeOperation: RouteOperationId)

  /** The value `update_operations` returns: `{}` or `{'operations': {'remove': ..., 'add': ...}}`. */
  datatype OperationsChange =
    | NoChange
    | Replace(remove: seq<OperationId>, add: seq<AddedOperation>)

  /** `a` is the operation the route operation `ro` stands for: the same sequence, work-centre
      category, work centre (none when `ro` has none), operation type, and a link back to `ro`. */
  predicate Copies(a: AddedOperation, ro: RouteOperation) {
    a.sequence == ro.sequence &&
    a.workCenterCategory == ro.workCenterCategory.id &&
    (a.workCenter.None? <==> ro.workCenter.None?) &&
    (ro.workCenter.Some? ==> a.workCenter == Some(ro.workCenter.value.id)) &&
    a.operationType == ro.operationType &&
    a.routeOperation == ro.id
  }

  /** The entry is fully determined by the route operation. */
  lemma CopyIsUnique(a: AddedOperation, b: AddedOperation, ro: RouteOperation)
    requires Copies(a, ro) && Copies(b, ro)
    ensures a == b
  {
  }

  /** `Production.update_operations`: with no route, no change; otherwise every current
      operation is removed and one operation is added per route operation, in route order. */
  method UpdateOperations(current: seq<OperationId>, route: Option<Route>) returns (change: OperationsChange)
    ensures change.NoChange? <==> route.None?
    ensures route.Some? ==> change.remove == current
    ensures route.Some? ==> |change.add| == |route.value.operations|
    ensures route.Some? ==> forall i :: 0 <= i < |change.add| ==> Copies(change.add[i], route.value.operations[i])
  {
    if route.None? {
      return NoChange;
    }
    var operations := route.value.operations;
    var add: seq<AddedOperation> := [];
    var i := 0;
    while i < |operations|
      invariant 0 <= i <= |operations|
      invariant |add| == i
      invariant forall k :: 0 <= k < i ==> Copies(add[k], operations[k])
    {
      var ro := operations[i];
      var workCenter := if ro.workCenter.Some? then Some(ro.workCenter.value.id) else None;
      add := add + [AddedOperation(ro.sequence, ro.workCenterCategory.id, workCenter, ro.operationType, ro.id)];
      i := i + 1;
    }
    change := Replace(current, add);
  }
}
