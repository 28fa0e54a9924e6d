/** What `Production.done` does to the outputs of a finished production: the total cost of its
    operations is spread over the total output quantity, the share is quantized to the
    cost-price digits, and every output's unit price grows by that share. */
module OutputPricing {
  import opened Records
  import opened Rounding
  import opened Costs
  import opened ProductionWorkflow

  function TotalQuantity(outputs: seq<Output>): real {
    if outputs == [] then 0.0 else outputs[0].quantity + TotalQuantity(outputs[1..])
  }

  /** The value of the outputs at their unit prices. */
  function OutputsValue(outputs: seq<Output>): real {
    if outputs == [] then 0.0
    else outputs[0].quantity * outputs[0].unitPrice + OutputsValue(outputs[1..])
  }

  function Abs(x: real): real {
    if x < 0.0 then -x else x
  }

  /** The unit-price increase: operation cost over output quantity, quantized to `digits`
      places; it is a whole number of units of 10^-digits within half a unit of the exact share. */
  function AddedUnitPrice(operationCost: real, totalQuantity: real, digits: nat): (share: real)
    requires totalQuantity != 0.0
    ensures WholeUnits(share, digits)
    ensures WithinHalfUnit(share - operationCost / totalQuantity, Pow10(digits))
  {
    Quantize(operationCost / totalQuantity, digits)
  }

  /** Every output with its unit price raised by `share`. */
  function Raised(outputs: seq<Output>, share: real): seq<Output> {
    if outputs == [] then []
    else [outputs[0].(unitPrice := outputs[0].unitPrice + share)] + Raised(outputs[1..], share)
  }

  /** Raising keeps every output and its quantity, and adds `share` to each unit price. */
  lemma {:induction false} RaisedAt(outputs: seq<Output>, share: real)
    ensures |Raised(outputs, share)| == |outputs|
    ensures forall i :: 0 <= i < |outputs| ==>
      Raised(outputs, share)[i] == outputs[i].(unitPrice := outputs[i].unitPrice + share)
  {
    if outputs != [] {
      RaisedAt(outputs[1..], share);
      forall i | 0 < i < |outputs|
        ensures Raised(outputs, share)[i] == outputs[i].(unitPrice := outputs[i].unitPrice + share)
      {
        assert Raised(outputs, share)[i] == Raised(outputs[1..], share)[i - 1];
      }
    }
  }

  lemma {:induction false} RaisedAppend(a: seq<Output>, b: seq<Output>, share: real)
    ensures Raised(a + b, share) == Raised(a, share) + Raised(b, share)
  {
    if a == [] {
      assert a + b == b;
    } else {
      assert (a + b)[1..] == a[1..] + b;
      RaisedAppend(a[1..], b, share);
    }
  }

  /** Raising the prices leaves the total output quantity as it was. */
  lemma {:induction false} RaisedKeepsQuantity(outputs: seq<Output>, share: real)
    ensures TotalQuantity(Raised(outputs, share)) == TotalQuantity(outputs)
  {
    if outputs != [] {
      RaisedKeepsQuantity(outputs[1..], share);
    }
  }

  /** Raising every unit price by `share` adds `share` times the total quantity to the value. */
  lemma {:induction false} RaisedValue(outputs: seq<Output>, share: real)
    ensures OutputsValue(Raised(outputs, share)) == OutputsValue(outputs) + share * TotalQuantity(outputs)
  {
    if outputs != [] {
      RaisedValue(outputs[1..], share);
      var o := outputs[0];
      assert o.quantity * (o.unitPrice + share) == o.quantity * o.unitPrice + share * o.quantity;
      assert share * TotalQuantity(outputs) == share * o.quantity + share * TotalQuantity(outputs[1..]);
    }
  }

  /** `error` is at most half a unit of scale `p`. */
  predicate WithinHalfUnit(error: real, p: real) {
    -0.5 <= error * p <= 0.5
  }

  /** `error`, in units of 10^-digits (scale `p`), is at most half a unit per unit of `q`. */
  predicate WithinHalfUnitPer(error: real, q: real, p: real) {
    -0.5 * Abs(q) <= error * p <= 0.5 * Abs(q)
  }

  /** Spreading recovers the operation cost: the value the outputs gain differs from the cost
      of the operations by at most half a unit of 10^-digits per unit of output quantity. */
  lemma SpreadRecoversCost(outputs: seq<Output>, operationCost: real, digits: nat)
    requires TotalQuantity(outputs) != 0.0
    ensures WithinHalfUnitPer(
      OutputsValue(Raised(outputs, AddedUnitPrice(operationCost, TotalQuantity(outputs), digits)))
        - OutputsValue(outputs) - operationCost,
      TotalQuantity(outputs), Pow10(digits))
  {
    var q := TotalQuantity(outputs);
    var share := AddedUnitPrice(operationCost, q, digits);
    var after := OutputsValue(Raised(outputs, share));
    var before := OutputsValue(outputs);
    assert after == before + share * q by {
      RaisedValue(outputs, share);
    }
    GainBound(after, before, share, operationCost, q, Pow10(digits));
  }

  lemma GainBound(after: real, before: real, share: real, cost: real, q: real, p: real)
    requires q != 0.0 && after == before + share * q
    requires WithinHalfUnit(share - cost / q, p)
    ensures WithinHalfUnitPer(after - before - cost, q, p)
  {
  }

  /** `Production.done`'s inner loop: each output's unit price raised by the share in turn. */
  method RaiseUnitPrices(outputs: seq<Output>, share: real) returns (raised: seq<Output>)
    ensures raised == Raised(outputs, share)
  {
    raised := [];
    var i := 0;
    while i < |outputs|
      invariant 0 <= i <= |outputs|
      invariant raised == Raised(outputs[..i], share)
    {
      var output := outputs[i];
      RaisedAppend(outputs[..i], [output], share);
      assert outputs[..i + 1] == outputs[..i] + [output];
      raised := raised + [output.(unitPrice := output.unitPrice + share)];
      i := i + 1;
    }
    assert outputs[..i] == outputs;
  }

  /** Production `pid` once `Production.done` has gone through: its outputs carry the share of
      its operations' cost, and the production module's `done` has moved it to done if it was
      running. A production in any other state is priced all the same and keeps its state. */
  function Finished(prod: Production, pid: ProductionId, ops: seq<Operation>, digits: nat, convert: Converter): Production
    requires TotalQuantity(prod.outputs) != 0.0
  {
    var share := AddedUnitPrice(OperationsCost(ops, pid, convert), TotalQuantity(prod.outputs), digits);
    prod.(state := BaseStep(prod.state, ProductionState.Done), outputs := Raised(prod.outputs, share))
  }

  /** The pricing does not depend on the production's state: a production that is not running
      keeps its state through `done`, and a second `done` adds the same share once more. */
  lemma DoneTwicePricesTwice(prod: Production, pid: ProductionId, ops: seq<Operation>, digits: nat, convert: Converter)
    requires TotalQuantity(prod.outputs) != 0.0 && !prod.state.Running?
    ensures var share := AddedUnitPrice(OperationsCost(ops, pid, convert), TotalQuantity(prod.outputs), digits);
            var once := Finished(prod, pid, ops, digits, convert);
            once.state == prod.state && TotalQuantity(once.outputs) == TotalQuantity(prod.outputs) &&
            Finished(once, pid, ops, digits, convert).outputs == Raised(Raised(prod.outputs, share), share)
  {
    var share := AddedUnitPrice(OperationsCost(ops, pid, convert), TotalQuantity(prod.outputs), digits);
    RaisedKeepsQuantity(prod.outputs, share);
  }
}
