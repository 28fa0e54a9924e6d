/** The records the production-operation module works on: operations and their tracking lines,
    work centres and their categories, units of measure, routes, and the part of a production
    that the module reads and writes. A Many2One field holds the referenced record itself (its
    `id` is one of its fields); money and quantities are exact rationals. */
module Records {
  import opened Wrappers

  type OperationId = nat
  type ProductionId = nat
  type RouteOperationId = nat
  type OperationTypeId = nat
  type UomCategoryId = nat

  datatype Uom = Uom(id: nat, category: UomCategoryId, digits: nat)

  datatype WorkCenterCategory = WorkCenterCategory(id: nat, uom: Uom)

  datatype WorkCenter = WorkCenter(id: nat, uom: Uom, costPrice: real)

  datatype OperationState = Planned | Waiting | Running | Done

  /** A time-tracking line of an operation: a quantity in some unit. */
  datatype TrackingLine = TrackingLine(uom: Uom, quantity: real)

  datatype Operation = Operation(
    production: ProductionId,
    sequence: Option<int>,
    workCenterCategory: WorkCenterCategory,
    workCenter: Option<WorkCenter>,
    operationType: Option<OperationTypeId>,
    routeOperation: Option<RouteOperationId>,
    lines: seq<TrackingLine>,
    state: OperationState)

  /** The values a caller gives when creating an operation, tracking lines included (the
      One2Many creates them with it); the state is left to its default. */
  datatype OperationValues = OperationValues(
    production: ProductionId,
    sequence: Option<int>,
    workCenterCategory: WorkCenterCategory,
    workCenter: Option<WorkCenter>,
    operationType: Option<OperationTypeId>,
    routeOperation: Option<RouteOperationId>,
    lines: seq<TrackingLine>)

  /** The states of the base production module; this module only asks whether one is done. */
  datatype ProductionState = Request | Draft | Waiting | Assigned | Running | Done | Cancelled

  /** An output move of a production: the quantity produced and its unit price. */
  datatype Output = Output(quantity: real, unitPrice: real)

  /** A production as this module sees it. `baseCost` is the cost the base production module
      computes from the inputs. */
  datatype Production = Production(state: ProductionState, outputs: seq<Output>, baseCost: real)

  datatype RouteOperation = RouteOperation(
    id: RouteOperationId,
    sequence: Option<int>,
    workCenterCategory: WorkCenterCategory,
    workCenter: Option<WorkCenter>,
    operationType: Option<OperationTypeId>)

  datatype Route = Route(operations: seq<RouteOperation>)

  /** The user errors the module raises, with the records they name. */
  datatype Error =
    | InvalidProductionState(production: ProductionId)
    | PendingOperations(production: ProductionId, operation: OperationId)
    | DivisionByZero(production: ProductionId)
}
