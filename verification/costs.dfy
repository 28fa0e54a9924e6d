/** The cost roll-up: a tracking line costs its quantity, converted to the work centre's unit,
    times the work centre's cost price; an operation costs the sum of its lines; a production
    costs its base cost plus the sum of its operations' costs. */
module Costs {
  import opened Wrappers
  import opened Records

  /** `Uom.compute_qty(from_uom, quantity, to_uom)`, which belongs to the product module. */
  type Converter = (Uom, real, Uom) -> real

  /** `OperationTracking.get_cost` for a line of an operation with the given work centre. */
  function LineCost(line: TrackingLine, workCenter: Option<WorkCenter>, convert: Converter): (c: real)
    ensures workCenter.None? ==> c == 0.0
    ensures workCenter.Some? && workCenter.value.costPrice == 0.0 ==> c == 0.0
  {
    match workCenter
    case None => 0.0
    case Some(wc) => convert(line.uom, line.quantity, wc.uom) * wc.costPrice
  }

  function LinesCost(lines: seq<TrackingLine>, workCenter: Option<WorkCenter>, convert: Converter): real {
    if lines == [] then 0.0
    else LineCost(lines[0], workCenter, convert) + LinesCost(lines[1..], workCenter, convert)
  }

  /** `Operation.get_cost`, as a value. */
  function OperationCost(op: Operation, convert: Converter): real {
    LinesCost(op.lines, op.workCenter, convert)
  }

  /** The cost of two runs of lines is the sum of their costs. */
  lemma {:induction false} LinesCostAppend(a: seq<TrackingLine>, b: seq<TrackingLine>, workCenter: Option<WorkCenter>, convert: Converter)
    ensures LinesCost(a + b, workCenter, convert) == LinesCost(a, workCenter, convert) + LinesCost(b, workCenter, convert)
  {
    if a != [] {
      assert (a + b)[1..] == a[1..] + b;
      LinesCostAppend(a[1..], b, workCenter, convert);
    } else {
      assert a + b == b;
    }
  }

  /** An operation without lines, or without a work centre, costs nothing. */
  lemma {:induction false} OperationCostZero(op: Operation, convert: Converter)
    requires op.lines == [] || op.workCenter.None?
    ensures OperationCost(op, convert) == 0.0
  {
    NoWorkCenterNoCost(op.lines, op.workCenter, convert);
  }

  lemma {:induction false} NoWorkCenterNoCost(lines: seq<TrackingLine>, workCenter: Option<WorkCenter>, convert: Converter)
    requires lines == [] || workCenter.None?
    ensures LinesCost(lines, workCenter, convert) == 0.0
  {
    if lines != [] {
      NoWorkCenterNoCost(lines[1..], workCenter, convert);
    }
  }

  /** With non-negative converted quantities and a non-negative cost price, an operation's cost
      is non-negative. */
  lemma {:induction false} LinesCostNonNegative(lines: seq<TrackingLine>, workCenter: Option<WorkCenter>, convert: Converter)
    requires workCenter.Some? ==> workCenter.value.costPrice >= 0.0
    requires workCenter.Some? ==> forall k :: 0 <= k < |lines| ==> convert(lines[k].uom, lines[k].quantity, workCenter.value.uom) >= 0.0
    ensures LinesCost(lines, workCenter, convert) >= 0.0
  {
    if lines != [] {
      assert workCenter.Some? ==> convert(lines[0].uom, lines[0].quantity, workCenter.value.uom) >= 0.0;
      LinesCostNonNegative(lines[1..], workCenter, convert);
    }
  }

  /** `Operation.get_cost`: the loop over the lines, adding each line's cost. */
  method GetOperationCost(op: Operation, convert: Converter) returns (cost: real)
    ensures cost == OperationCost(op, convert)
  {
    cost := 0.0;
    var i := 0;
    while i < |op.lines|
      invariant 0 <= i <= |op.lines|
      invariant cost == LinesCost(op.lines[..i], op.workCenter, convert)
    {
      LinesCostAppend(op.lines[..i], [op.lines[i]], op.workCenter, convert);
      assert op.lines[..i + 1] == op.lines[..i] + [op.lines[i]];
      cost := cost + LineCost(op.lines[i], op.workCenter, convert);
      i := i + 1;
    }
    assert op.lines[..i] == op.lines;
  }

  /** The sum of the costs of the operations of production `pid` in `ops`. */
  function OperationsCost(ops: seq<Operation>, pid: ProductionId, convert: Converter): real {
    if ops == [] then 0.0
    else (if ops[0].production == pid then OperationCost(ops[0], convert) else 0.0)
         + OperationsCost(ops[1..], pid, convert)
  }

  /** `Production.get_cost`, as a value: the base module's cost plus the operations' costs. */
  function ProductionCost(prod: Production, pid: ProductionId, ops: seq<Operation>, convert: Converter): real {
    prod.baseCost + OperationsCost(ops, pid, convert)
  }

  lemma {:induction false} OperationsCostAppend(a: seq<Operation>, b: seq<Operation>, pid: ProductionId, convert: Converter)
    ensures OperationsCost(a + b, pid, convert) == OperationsCost(a, pid, convert) + OperationsCost(b, pid, convert)
  {
    if a != [] {
      assert (a + b)[1..] == a[1..] + b;
      OperationsCostAppend(a[1..], b, pid, convert);
    } else {
      assert a + b == b;
    }
  }

  /** Two operation lists that differ at most in the operations' states. */
  predicate OnlyStatesDiffer(a: seq<Operation>, b: seq<Operation>) {
    |a| == |b| &&
    forall i :: 0 <= i < |a| ==> a[i].(state := OperationState.Planned) == b[i].(state := OperationState.Planned)
  }

  /** Moving operations through their states never changes what any production costs. */
  lemma {:induction false} StatesDoNotCost(a: seq<Operation>, b: seq<Operation>, pid: ProductionId, convert: Converter)
    requires OnlyStatesDiffer(a, b)
    ensures OperationsCost(a, pid, convert) == OperationsCost(b, pid, convert)
  {
    if a != [] {
      assert a[0].(state := OperationState.Planned) == b[0].(state := OperationState.Planned);
      assert a[0].lines == b[0].lines && a[0].workCenter == b[0].workCenter && a[0].production == b[0].production;
      assert OnlyStatesDiffer(a[1..], b[1..]) by {
        forall i | 0 <= i < |a[1..]|
          ensures a[1..][i].(state := OperationState.Planned) == b[1..][i].(state := OperationState.Planned)
        {
          assert a[1..][i] == a[i + 1] && b[1..][i] == b[i + 1];
        }
      }
      StatesDoNotCost(a[1..], b[1..], pid, convert);
    }
  }

  /** Saving one more tracking line on operation `id` raises the operation cost of its own
      production by that line's cost, and no other production's. */
  lemma {:induction false} AddedLineCost(ops: seq<Operation>, id: nat, line: TrackingLine, pid: ProductionId, convert: Converter)
    requires id < |ops|
    ensures OperationsCost(ops[id := ops[id].(lines := ops[id].lines + [line])], pid, convert) ==
            OperationsCost(ops, pid, convert) +
            (if ops[id].production == pid then LineCost(line, ops[id].workCenter, convert) else 0.0)
  {
    var after := ops[id := ops[id].(lines := ops[id].lines + [line])];
    if id == 0 {
      assert after[1..] == ops[1..];
      LinesCostAppend(ops[0].lines, [line], ops[0].workCenter, convert);
      assert [line][1..] == [];
    } else {
      assert after[1..] == ops[1..][id - 1 := ops[id].(lines := ops[id].lines + [line])];
      AddedLineCost(ops[1..], id - 1, line, pid, convert);
    }
  }

  /** Operations added without tracking lines, as a route's operations are, change no
      production's cost. */
  lemma {:induction false} LinelessOperationsCostNothing(ops: seq<Operation>, added: seq<Operation>, pid: ProductionId, convert: Converter)
    requires forall k :: 0 <= k < |added| ==> added[k].lines == []
    ensures OperationsCost(ops + added, pid, convert) == OperationsCost(ops, pid, convert)
  {
    OperationsCostAppend(ops, added, pid, convert);
    NoLinesNoCost(added, pid, convert);
  }

  lemma {:induction false} NoLinesNoCost(added: seq<Operation>, pid: ProductionId, convert: Converter)
    requires forall k :: 0 <= k < |added| ==> added[k].lines == []
    ensures OperationsCost(added, pid, convert) == 0.0
  {
    if added != [] {
      OperationCostZero(added[0], convert);
      NoLinesNoCost(added[1..], pid, convert);
    }
  }

  /** `Production.get_cost`: the base cost, then each operation of the production added in turn. */
  method GetProductionCost(prod: Production, pid: ProductionId, ops: seq<Operation>, convert: Converter) returns (cost: real)
    ensures cost == ProductionCost(prod, pid, ops, convert)
  {
    cost := prod.baseCost;
    var i := 0;
    while i < |ops|
      invariant 0 <= i <= |ops|
      invariant cost == prod.baseCost + OperationsCost(ops[..i], pid, convert)
    {
      OperationsCostAppend(ops[..i], [ops[i]], pid, convert);
      assert ops[..i + 1] == ops[..i] + [ops[i]];
      if ops[i].production == pid {
        var operationCost := GetOperationCost(ops[i], convert);
        cost := cost + operationCost;
      }
      i := i + 1;
    }
    assert ops[..i] == ops;
  }
}
