/**
 * The expenditure entry form (src/components/expenditures/ExpenditureForm.tsx).
 */
module ExpenditureForm {
  import opened Collections
  import opened Types
  import opened FormErrors

  datatype ExpenditureFormData = ExpenditureFormData(
    equipmentType: EquipmentType, quantity: int, baseId: string, date: string, purpose: string)

  /** The form's initial state: ammunition, quantity 0; `today` is the
      current ISO date. */
  function InitialExpenditureForm(today: string): ExpenditureFormData
  {
    ExpenditureFormData(Ammunition, 0, "", today, "")
  }

  /** One change event: the input's `name` and its new value. */
  datatype ExpenditureEdit =
    | EquipmentTypeEdit(equipmentType: EquipmentType)
    | QuantityEdit(quantity: int)
    | BaseIdEdit(baseId: string)
    | DateEdit(date: string)
    | PurposeEdit(purpose: string)

  function ApplyEdit(d: ExpenditureFormData, e: ExpenditureEdit): ExpenditureFormData
  {
    match e
    case EquipmentTypeEdit(v) => d.(equipmentType := v)
    case QuantityEdit(v) => d.(quantity := v)
    case BaseIdEdit(v) => d.(baseId := v)
    case DateEdit(v) => d.(date := v)
    case PurposeEdit(v) => d.(purpose := v)
  }

  /** The error dictionary, one optional message per input name. */
  datatype ExpenditureErrors = ExpenditureErrors(
    equipmentType: Option<string>, quantity: Option<string>, baseId: Option<string>,
    date: Option<string>, purpose: Option<string>)

  const NoExpenditureErrors := ExpenditureErrors(None, None, None, None, None)

  /** `Object.keys(errors).length === 0`. */
  predicate ExpenditureErrorsEmpty(e: ExpenditureErrors)
  {
    e == NoExpenditureErrors
  }

  /** The errors after `handleChange` edited one input: only that input's
      entry is cleared. */
  function ClearEditedError(errs: ExpenditureErrors, e: ExpenditureEdit): ExpenditureErrors
  {
    match e
    case EquipmentTypeEdit(_) => errs.(equipmentType := Cleared(errs.equipmentType))
    case QuantityEdit(_) => errs.(quantity := Cleared(errs.quantity))
    case BaseIdEdit(_) => errs.(baseId := Cleared(errs.baseId))
    case DateEdit(_) => errs.(date := Cleared(errs.date))
    case PurposeEdit(_) => errs.(purpose := Cleared(errs.purpose))
  }

  const EquipmentTypeRequired := "Equipment type is required"
  const QuantityPositive := "Quantity must be greater than 0"
  const BaseRequired := "Base is required"
  const DateRequired := "Date is required"
  const PurposeRequired := "Purpose is required"

  /** An expenditure draft the form accepts. */
  predicate ExpenditureValid(d: ExpenditureFormData)
  {
    d.quantity > 0 && d.baseId != "" && d.date != "" && d.purpose != ""
  }

  /** The verdict on each input: the quantity fails when not positive, the
      base, date and purpose when empty; the equipment type never fails. The
      form is accepted exactly when no input fails. */
  function ExpenditureErrorsOf(d: ExpenditureFormData): (errs: ExpenditureErrors)
    ensures errs.equipmentType == None
    ensures ExpenditureErrorsEmpty(errs) <==> ExpenditureValid(d)
  {
    ExpenditureErrors(
      None,
      if d.quantity <= 0 then Some(QuantityPositive) else None,
      if d.baseId == "" then Some(BaseRequired) else None,
      if d.date == "" then Some(DateRequired) else None,
      if d.purpose == "" then Some(PurposeRequired) else None)
  }

  class ExpenditureFormState {
    var formData: ExpenditureFormData
    var errors: ExpenditureErrors

    constructor (today: string)
      ensures formData == InitialExpenditureForm(today) && errors == NoExpenditureErrors
    {
      formData := InitialExpenditureForm(today);
      errors := NoExpenditureErrors;
    }

    /** `handleChange`: store the new value of the edited input and clear
        that input's error if it was set. */
    method HandleChange(e: ExpenditureEdit)
      modifies this
      ensures formData == ApplyEdit(old(formData), e)
      ensures errors == ClearEditedError(old(errors), e)
    {
      formData := ApplyEdit(formData, e);
      errors := ClearEditedError(errors, e);
    }

    /** `validateForm`: build the error dictionary check by check, store it,
        and report whether it is empty. */
    method ValidateForm() returns (ok: bool)
      modifies this`errors
      ensures errors == ExpenditureErrorsOf(formData)
      ensures ok <==> ExpenditureValid(formData)
    {
      var newErrors := NoExpenditureErrors;
      if EquipmentTypeName(formData.equipmentType) == "" {
        newErrors := newErrors.(equipmentType := Some(EquipmentTypeRequired));
      }
      if formData.quantity <= 0 {
        newErrors := newErrors.(quantity := Some(QuantityPositive));
      }
      if formData.baseId == "" {
        newErrors := newErrors.(baseId := Some(BaseRequired));
      }
      if formData.date == "" {
        newErrors := newErrors.(date := Some(DateRequired));
      }
      if formData.purpose == "" {
        newErrors := newErrors.(purpose := Some(PurposeRequired));
      }
      errors := newErrors;
      ok := ExpenditureErrorsEmpty(newErrors);
    }

    /** `handleSubmit`: validate, and hand the current data to `onSubmit`
        only when there is no error. The result is what `onSubmit` received,
        or None when it was not called. */
    method HandleSubmit() returns (submitted: Option<ExpenditureFormData>)
      modifies this`errors
      ensures errors == ExpenditureErrorsOf(formData)
      ensures submitted == if ExpenditureValid(formData) then Some(formData) else None
    {
      var ok := ValidateForm();
      submitted := if ok then Some(formData) else None;
    }
  }

  /** The initial form is rejected, with a quantity error among others. */
  lemma InitialExpenditureFormInvalid(today: string)
    ensures InitialExpenditureForm(today).equipmentType == Ammunition
    ensures ExpenditureErrorsOf(InitialExpenditureForm(today)).quantity == Some(QuantityPositive)
    ensures !ExpenditureValid(InitialExpenditureForm(today))
  {
  }
}
