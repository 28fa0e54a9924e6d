# Production operations: a Dafny model

This project models `operation.py` of the Tryton module `production_operation`. The module
splits a production order into operations, such as assembly or cleaning, each done at a work
centre. It tracks the time spent on each operation, rolls the cost of that time up into the
production, and spreads it over the produced goods when the production is done.

The model covers:

- **The operation state machine.** Operations move through planned, waiting, running and done
  (`OperationWorkflow`). The `wait` and `run` buttons move only the operations that have a
  declared edge to the target state and silently keep the others. `Operation.done` writes done
  regardless of the prior state.
- **Sort order.** Operations are ordered by sequence, with unsequenced operations last
  (`OperationOrder`).
- **The production's own transitions.** `Production.run` and `Production.done` call the
  production module's `run` and `done`, which are workflow transitions there
  (`ProductionWorkflow`). The production module is not part of this model. Of its edges the
  model takes the two that lead into running and done: assigned to running and running to
  done. A production in any other state keeps its state.
- **Units of measure.** The unit-of-measure category of an operation, the default and suggested
  unit of a tracking line, and its unit digits (`UnitsOfMeasure`).
- **Cost roll-up.** From tracking line to operation to production (`Costs`). A unit conversion
  is a parameter of these functions.
- **Rounding.** Decimal `quantize` with round-half-even (`Rounding`).
- **Pricing.** How `Production.done` adds the rounded operation cost per unit to every output's
  unit price (`OutputPricing`).
- **Route copy.** The change that `update_operations` produces when a route is chosen
  (`Routes`).
- **The stored records.** The class methods that change them (`Store.Database`): creation with
  its guard against done productions, saving a tracking line, `wait`/`run`, `Operation.done`,
  `Production.run` and `Production.done`. Operations are stored in a sequence whose index is the operation's id.
  Productions are stored in a map.

Money and quantities are exact rationals (`real`). The model rounds in one place only: the
quantize in `Production.done` (operation.py:298-299), modelled explicitly as round-half-even to
the cost-price digits. The source also rounds elsewhere: the division before the quantize keeps
28 significant digits, and `Decimal(str(float))` rounds the float quantities. Both are left out
(see below).

The `Database` class keeps one invariant, `Valid`:

- every operation refers to a stored production;
- every operation of a done production is done.

Every method preserves it. `Store.CreationGuardIsExact` shows that the creation guard is exactly
the condition under which adding operations keeps it.

Where `Production.done` meets outputs whose quantities add up to zero, the source divides a
Decimal by zero. That raises an error, and the transaction rolls back. The model returns
`Fail(DivisionByZero)` and leaves the records unchanged; it does not forbid the case by a
precondition.

## Model

| member | source | states |
|---|---|---|
| OperationWorkflow.TransitionTable | operation.py:60-65 | new operations start planned; the only edges are planned→waiting, waiting→running, running→waiting, running→done; nothing leads back to planned and nothing leaves done |
| OperationWorkflow.Step | operation.py:129-139 | a workflow transition moves a record to the target exactly when it is already there or an edge leads there, and otherwise leaves it unchanged |
| OperationWorkflow.StepIdempotent | operation.py:129-139 | pressing the same transition button twice has the effect of pressing it once |
| OperationWorkflow.WaitOutcome | operation.py:129-133 | `wait` puts every operation in waiting except done ones, which stay done |
| OperationWorkflow.RunOutcome | operation.py:135-139 | `run` moves waiting operations to running and leaves operations in any other state unchanged |
| OperationWorkflow.HistoryShape | operation.py:60-65 | along any sequence of states that follows the declared edges, planned occurs only first, and done occurs only last and right after running; `Operation.done`'s direct write lies outside these edges |
| OperationWorkflow.NewOperation | operation.py:81-83 | a created operation carries exactly the given values, tracking lines included, and starts in the default state, planned |
| OperationWorkflow.MarkedDone | operation.py:147 | writing done changes the state of exactly the given operations to done, whatever their prior state, and changes nothing else |
| OperationOrder.SequenceOrderIsTotalPreorder | operation.py:118-121 | the sort key gives a reflexive, total and transitive order |
| OperationOrder.SequenceTies | operation.py:118-121 | two operations tie in the order exactly when their sequences are equal (both absent or the same number) |
| OperationOrder.OrderedIff | operation.py:118-121 | a list is in operation order if and only if every operation with a sequence precedes every one without, and sequences ascend among the former |
| UnitsOfMeasure.UomCategory | operation.py:94-98 | the category is that of the work-centre category's unit if there is a category, else that of the work centre's unit, else none |
| UnitsOfMeasure.DefaultUom | operation.py:175-186 | a new tracking line's unit is the context work centre's unit, else the context category's unit, else none |
| UnitsOfMeasure.SuggestedUom | operation.py:197-199 | a unit is suggested exactly when the operation has a work centre, and it is that work centre's unit |
| UnitsOfMeasure.UnitDigits | operation.py:201-204 | the quantity digits are the unit's digits, or 2 when no unit is set |
| UnitsOfMeasure.DefaultUomMeetsDomain | operation.py:159-164 | when the work centre and its category use units of one category, the default unit satisfies the tracking line's domain, and the digits are that unit's |
| UnitsOfMeasure.DefaultUomMayMissDomain | operation.py:175-186 | when the two units differ in category, the default unit can fall outside the domain |
| Rounding.RoundHalfEven | operation.py:298-299 | the result is the integer nearest to the scaled value, with ties going to the even neighbour |
| Rounding.RoundingIsUnique | operation.py:298-299 | at most one integer is a half-even rounding of a value, so the rounding is determined |
| Rounding.Quantize | operation.py:298-299 | the quantized value is a whole number of units of 10^-digits, equal to the half-even rounding, and within half a unit of the input |
| Costs.LineCost | operation.py:188-195 | a tracking line costs nothing when its operation has no work centre or the cost price is zero |
| Costs.NoWorkCenterNoCost | operation.py:188-192 | all lines of an operation without a work centre cost nothing together |
| Costs.LinesCostNonNegative | operation.py:188-195 | with non-negative converted quantities and cost price, the lines' total cost is non-negative |
| Costs.LinesCostAppend | operation.py:123-127 | the cost of lines is additive over concatenation |
| Costs.OperationCostZero | operation.py:123-127 | an operation without tracking lines or without a work centre costs nothing |
| Costs.GetOperationCost | operation.py:123-127 | the accumulating loop returns the sum of the line costs |
| Costs.OperationsCostAppend | operation.py:306-310 | a production's operation costs are additive over concatenation of the operation list |
| Costs.StatesDoNotCost | operation.py:306-310 | lists of operations that differ only in their states give every production the same operation cost |
| Costs.AddedLineCost | operation.py:306-310 | saving one more tracking line on an operation raises its own production's operation cost by the line's cost and leaves every other production's unchanged |
| Costs.LinelessOperationsCostNothing | operation.py:306-310 | adding operations without tracking lines leaves every production's cost unchanged |
| Costs.NoLinesNoCost | operation.py:306-310 | operations without tracking lines add up to zero cost |
| Costs.GetProductionCost | operation.py:306-310 | the loop returns the production's base cost plus the costs of its own operations |
| ProductionWorkflow.BaseStep | operation.py:260 | the production module's transition moves a production to the target exactly when it is already there or a declared edge leads there, and otherwise keeps its state |
| ProductionWorkflow.StartOutcome | operation.py:260 | the production module's `run` starts assigned productions and leaves all others as they are |
| ProductionWorkflow.FinishOutcome | operation.py:304 | the production module's `done` finishes running productions and leaves all others as they are |
| ProductionWorkflow.DoneIsFinal | operation.py:304 | neither transition takes a production out of done, and only a running production becomes done |
| OutputPricing.AddedUnitPrice | operation.py:294-299 | the added unit price is a whole number of cost-price units and lies within half such a unit of cost divided by quantity |
| OutputPricing.RaisedAt | operation.py:300-302 | every output's unit price grows by the same share and nothing else about it changes |
| OutputPricing.RaisedAppend | operation.py:300-302 | raising the unit prices works output by output |
| OutputPricing.RaisedKeepsQuantity | operation.py:300-302 | raising the unit prices leaves the total output quantity unchanged |
| OutputPricing.RaisedValue | operation.py:300-302 | the outputs' total value grows by the share times the total quantity |
| OutputPricing.SpreadRecoversCost | operation.py:294-302 | after the rounded share is added, the outputs' value grows by the operation cost, up to half a cost-price unit per unit of output |
| OutputPricing.DoneTwicePricesTwice | operation.py:294-304 | a production that is not running keeps its state through `done`, and a second `done` adds the same share to its unit prices once more |
| OutputPricing.RaiseUnitPrices | operation.py:300-302 | the loop over the outputs adds the share to each unit price, in order |
| Routes.CopyIsUnique | operation.py:240-249 | a route operation determines its add entry completely |
| Routes.UpdateOperations | operation.py:230-250 | no route gives no change; a route removes every current operation and adds one copy per route operation, in route order, with a null work centre or type where the route operation has none |
| Store.OperationsOf | operation.py:214-217 | a production's operations are exactly the stored operations referring to it, listed once each in id order |
| Store.CreationGuardIsExact | operation.py:100-116 | adding new operations keeps every done production's operations done if and only if no new operation refers to a done production |
| Store.MarkedDoneKeepsCosts | operation.py:141-150 | writing done on operations changes no production's operation cost |
| Store.DoneOfEveryOperationClearsPending | operation.py:141-150 | when the given operations include every unfinished operation of their productions, no operation of those productions is pending after done |
| Store.Database.Create | operation.py:100-116 | creation fails exactly when some referenced production is done, and then reports it and creates nothing; otherwise it appends one planned operation per value |
| Store.Database.AddLine | operation.py:153-169 | a saved tracking line joins its operation's lines, nothing else changes and the invariant holds |
| Store.Database.Transition | operation.py:129-139 | the given operations take their transition step, the rest are untouched, only states change, and the invariant holds |
| Store.Database.Wait | operation.py:129-133 | the given operations become waiting unless already done |
| Store.Database.Run | operation.py:135-139 | the given waiting operations become running and every other operation keeps its state |
| Store.Database.StartProductions | operation.py:260 | the given productions take the production module's `run` step, so assigned ones start running and done ones stay done; the operations stay as they were |
| Store.Database.ProductionRun | operation.py:255-267 | the productions take the `run` step, and every operation of theirs is then waiting (or was and stays done), whether or not its production started; none is planned or running |
| Store.Database.ProductionDone | operation.py:269-304 | with a pending operation it returns quietly when called from an operation, else fails naming the pending operation; with zero output it fails; otherwise every output of each production gains the rounded cost share, and the running productions become done while the others keep their state |
| Store.Database.OperationDone | operation.py:141-150 | marks the operations done whatever their state, then finishes their distinct productions exactly as done would from an operation, and undoes everything if that fails |

## Left out

- ORM plumbing is not modelled: field declarations, PYSON states and domains, button visibility and icons, pool registration, record names and error-message text.
- `Uom.compute_qty` is a parameter (`convert`) of the cost functions. Unit conversion lives in the product module and is not part of this model.
- The float `quantity` field and the `Decimal(str(float))` conversions are not modelled. Quantities are exact rationals, and Decimal's 28-digit precision on the division before quantizing is not modelled either.
- Transaction context is a parameter: `from_done_operation` is a boolean argument of `ProductionDone`, and the work centre or category of `default_uom` are arguments.
- Store.Database.StartProductions: only the state change of the production module's own `run` is modelled, with assigned to running as the only edge into running. Its stock moves and the rest of that module are not part of this model.
- Store.Database.ProductionDone: only the state change of the production module's own `done` is modelled, with running to done as the only edge into done. Its stock moves and cost computation are not part of this model. The pricing of operation.py:294-302 does not depend on the state. So a production that is not running is priced but keeps its state, and a later `done` prices it again (`OutputPricing.DoneTwicePricesTwice`). The model does the same.
- Store.Database.ProductionDone: productions are taken as a set, so a production listed twice is priced once rather than twice.
- Store.Database.Create: the override returns nothing, so the model reports only success or failure and no new ids. The caller must also ensure that every value refers to a stored production.
- Store.OperationsOf: lists a production's operations by id rather than by sequence. The order does not matter to anything that uses the list.
- The cost-price digits are a parameter (`costDigits`). The lookup of the digits on the product or template is left out.
- configuration.py is not part of this model: it declares settings that operation.py does not read.
- `on_change_route` only forwards `update_operations` and is covered by `Routes.UpdateOperations`.
