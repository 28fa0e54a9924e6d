/** The production module's own `run` and `done`, which `Production.run` and `Production.done`
    call through `super()`. They are workflow transitions there: a production moves to the
    target only along a declared edge and otherwise keeps its state. The production module is
    not part of this model; of its edges, the model takes the two that lead into running and
    done, assigned to running and running to done. */
module ProductionWorkflow {
  import opened Records

  predicate BaseAllowed(s: ProductionState, t: ProductionState) {
    (s == ProductionState.Assigned && t == ProductionState.Running) ||
    (s == ProductionState.Running && t == ProductionState.Done)
  }

  /** A production's state after the production module's transition to `target`. */
  function BaseStep(s: ProductionState, target: ProductionState): (t: ProductionState)
    ensures t == target || t == s
    ensures t == target <==> s == target || BaseAllowed(s, target)
  {
    if BaseAllowed(s, target) then target else s
  }

  /** `run` starts assigned productions and leaves all others as they are. */
  lemma StartOutcome(s: ProductionState)
    ensures BaseStep(s, ProductionState.Running) == if s.Assigned? then ProductionState.Running else s
  {
  }

  /** `done` finishes running productions and leaves all others as they are. */
  lemma FinishOutcome(s: ProductionState)
    ensures BaseStep(s, ProductionState.Done) == if s.Running? then ProductionState.Done else s
  {
  }

  /** A done production stays done whichever of the two transitions is applied, and only a
      running one becomes done. */
  lemma DoneIsFinal(s: ProductionState, target: ProductionState)
    requires target == ProductionState.Running || target == ProductionState.Done
    ensures s.Done? ==> BaseStep(s, target).Done?
    ensures BaseStep(s, target).Done? ==> s.Done? || s.Running?
  {
  }
}
