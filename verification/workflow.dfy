/** The life cycle of one operation: its states, the declared transition edges, the start
    state, and what the `wait`, `run` and `done` buttons do to one operation. */
module OperationWorkflow {
  import opened Wrappers
  import opened Records

  /** The edges declared in `Operation.__setup__`. */
  const Transitions: set<(OperationState, OperationState)> :=
    {(OperationState.Planned, OperationState.Waiting),
     (OperationState.Waiting, OperationState.Running),
     (OperationState.Running, OperationState.Waiting),
     (OperationState.Running, OperationState.Done)}

  predicate Allowed(from: OperationState, to: OperationState) {
    (from, to) in Transitions
  }

  function DefaultState(): OperationState {
    OperationState.Planned
  }

  /** The framework's transition guard applied to one record: the record moves to `target`
      when a declared edge leads there, and keeps its state otherwise. */
  function Step(s: OperationState, target: OperationState): (t: OperationState)
    ensures t == target || t == s
    ensures t == target <==> s == target || Allowed(s, target)
  {
    if Allowed(s, target) then target else s
  }

  /** The edges, read state by state: a new operation starts planned and can never return
      there; waiting is entered from planned or running, running only from waiting, done
      only from running, and nothing leaves done. */
  lemma TransitionTable()
    ensures DefaultState() == OperationState.Planned
    ensures forall s :: !Allowed(s, OperationState.Planned)
    ensures forall s :: Allowed(s, OperationState.Waiting) <==> s == OperationState.Planned || s == OperationState.Running
    ensures forall s :: Allowed(s, OperationState.Running) <==> s == OperationState.Waiting
    ensures forall s :: Allowed(s, OperationState.Done) <==> s == OperationState.Running
    ensures forall t :: !Allowed(OperationState.Done, t)
  {
  }

  /** Applying the same button twice is the same as applying it once: no edge is a loop. */
  lemma StepIdempotent(s: OperationState, target: OperationState)
    ensures Step(Step(s, target), target) == Step(s, target)
  {
  }

  /** `wait` brings planned, waiting and running operations to waiting, and leaves done ones done. */
  lemma WaitOutcome(s: OperationState)
    ensures Step(s, OperationState.Waiting) == if s.Done? then OperationState.Done else OperationState.Waiting
  {
  }

  /** `run` starts exactly the waiting operations. */
  lemma RunOutcome(s: OperationState)
    ensures Step(s, OperationState.Running) == if s.Waiting? then OperationState.Running else s
  {
  }

  /** A sequence of states that starts in the default state and follows the declared edges
      only. `Operation.done` writes done directly from any state, outside these edges. */
  predicate IsHistory(h: seq<OperationState>) {
    |h| > 0 && h[0] == DefaultState() &&
    forall i :: 0 < i < |h| ==> Allowed(h[i - 1], h[i])
  }

  /** Along any history, planned is only the first state, and done is only the last one and
      always follows running. */
  lemma {:induction false} HistoryShape(h: seq<OperationState>)
    requires IsHistory(h)
    ensures forall i :: 0 < i < |h| ==> !h[i].Planned?
    ensures forall i :: 0 <= i < |h| && h[i].Done? ==> i == |h| - 1 && 0 < i && h[i - 1].Running?
  {
    forall i | 0 < i < |h|
      ensures !h[i].Planned?
    {
      assert Allowed(h[i - 1], h[i]);
    }
    forall i | 0 <= i < |h| - 1
      ensures !h[i].Done?
    {
      assert Allowed(h[i], h[i + 1]);
    }
    forall i | 0 < i < |h| && h[i].Done?
      ensures h[i - 1].Running?
    {
      assert Allowed(h[i - 1], h[i]);
    }
  }

  /** A new operation built from the values a caller gives, in the default state. */
  function NewOperation(v: OperationValues): (op: Operation)
    ensures op.state == DefaultState() && op.lines == v.lines
    ensures op.production == v.production && op.sequence == v.sequence
    ensures op.workCenterCategory == v.workCenterCategory && op.workCenter == v.workCenter
    ensures op.operationType == v.operationType && op.routeOperation == v.routeOperation
  {
    Operation(v.production, v.sequence, v.workCenterCategory, v.workCenter, v.operationType,
      v.routeOperation, v.lines, DefaultState())
  }

  function NewOperations(vlist: seq<OperationValues>): seq<Operation> {
    seq(|vlist|, i requires 0 <= i < |vlist| => NewOperation(vlist[i]))
  }

  /** `Operation.done` writes done on every given operation, whatever its state. */
  function MarkedDone(ops: seq<Operation>, ids: seq<OperationId>): (r: seq<Operation>)
    ensures |r| == |ops|
    ensures forall i :: 0 <= i < |ops| && i in ids ==> r[i] == ops[i].(state := OperationState.Done)
    ensures forall i :: 0 <= i < |ops| && i !in ids ==> r[i] == ops[i]
  {
    seq(|ops|, i requires 0 <= i < |ops| =>
      if i in ids then ops[i].(state := OperationState.Done) else ops[i])
  }
}
