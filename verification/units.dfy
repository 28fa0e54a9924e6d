/** The unit-of-measure defaults: the unit category of an operation, the default and the
    suggested unit of a tracking line, and the digits its quantity is shown with. */
module UnitsOfMeasure {
  import opened Wrappers
  import opened Records

  /** `Operation.on_change_with_uom_category`: the category of the work-centre category's unit,
      or else of the work centre's unit. */
  function UomCategory(category: Option<WorkCenterCategory>, workCenter: Option<WorkCenter>): (r: Option<UomCategoryId>)
    ensures r.None? <==> category.None? && workCenter.None?
    ensures category.Some? ==> r == Some(category.value.uom.category)
    ensures category.None? && workCenter.Some? ==> r == Some(workCenter.value.uom.category)
  {
    if category.Some? then Some(category.value.uom.category)
    else if workCenter.Some? then Some(workCenter.value.uom.category)
    else None
  }

  /** `OperationTracking.default_uom`: from the context the operation's `lines` field passes,
      the work centre's unit, or else the work-centre category's unit. */
  function DefaultUom(workCenter: Option<WorkCenter>, category: Option<WorkCenterCategory>): (r: Option<Uom>)
    ensures r.None? <==> workCenter.None? && category.None?
    ensures workCenter.Some? ==> r == Some(workCenter.value.uom)
    ensures workCenter.None? && category.Some? ==> r == Some(category.value.uom)
  {
    if workCenter.Some? then Some(workCenter.value.uom)
    else if category.Some? then Some(category.value.uom)
    else None
  }

  /** `OperationTracking.on_change_with_uom`: the unit of the operation's work centre, if any. */
  function SuggestedUom(op: Operation): (r: Option<Uom>)
    ensures r.Some? <==> op.workCenter.Some?
    ensures r.Some? ==> r.value == op.workCenter.value.uom
  {
    if op.workCenter.Some? then Some(op.workCenter.value.uom) else None
  }

  /** `OperationTracking.on_change_with_unit_digits`: the unit's digits, 2 without a unit. */
  function UnitDigits(uom: Option<Uom>): (d: nat)
    ensures uom.Some? ==> d == uom.value.digits
    ensures uom.None? ==> d == 2
  {
    if uom.Some? then uom.value.digits else 2
  }

  /** An operation whose work centre (when it has one) measures in the same unit category as
      its work-centre category; the work centre domain on the operation asks the work centre
      to belong to that category. */
  predicate UnitsAgree(op: Operation) {
    op.workCenter.Some? ==> op.workCenter.value.uom.category == op.workCenterCategory.uom.category
  }

  /** A new tracking line of an operation gets a default unit, and that unit lies in the unit
      category the line's unit domain asks for (the operation's `uom_category`); its quantity
      is shown with that unit's digits. */
  lemma DefaultUomMeetsDomain(op: Operation)
    requires UnitsAgree(op)
    ensures DefaultUom(op.workCenter, Some(op.workCenterCategory)).Some?
    ensures Some(DefaultUom(op.workCenter, Some(op.workCenterCategory)).value.category) ==
            UomCategory(Some(op.workCenterCategory), op.workCenter)
    ensures UnitDigits(DefaultUom(op.workCenter, Some(op.workCenterCategory))) ==
            DefaultUom(op.workCenter, Some(op.workCenterCategory)).value.digits
  {
  }

  /** Without the agreement the default unit can fall outside the domain: the two defaults
      consult the work centre and its category in opposite orders. */
  lemma DefaultUomMayMissDomain()
    ensures exists op: Operation :: (!UnitsAgree(op) &&
              Some(DefaultUom(op.workCenter, Some(op.workCenterCategory)).value.category) !=
              UomCategory(Some(op.workCenterCategory), op.workCenter))
  {
    var hour := Uom(1, 1, 2);
    var unit := Uom(2, 2, 0);
    var op := Operation(0, None, WorkCenterCategory(1, hour), Some(WorkCenter(1, unit, 1.0)),
      None, None, [], OperationState.Planned);
    assert !UnitsAgree(op);
    assert DefaultUom(op.workCenter, Some(op.workCenterCategory)).value.category == 2;
  }
}
