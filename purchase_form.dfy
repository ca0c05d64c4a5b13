/**
 * The purchase entry form (src/components/purchases/PurchaseForm.tsx): its
 * data, the per-field edit handler, the validator and the submit handler.
 */
module PurchaseForm {
  import opened Collections
  import opened Types
  import opened FormErrors

  datatype PurchaseFormData = PurchaseFormData(
    equipmentType: EquipmentType, quantity: int, baseId: string, date: string,
    purchaseOrder: string, supplier: string, cost: int, notes: Option<string>)

  /** The form's initial state; `today` is the current ISO date. The notes
      textarea has no initial entry: it gets one when first edited. */
  function InitialPurchaseForm(today: string): PurchaseFormData
  {
    PurchaseFormData(Weapon, 0, "", today, "", "", 0, None)
  }

  /** One change event: the input's `name` and its new value. */
  datatype PurchaseEdit =
    | EquipmentTypeEdit(equipmentType: EquipmentType)
    | QuantityEdit(quantity: int)
    | BaseIdEdit(baseId: string)
    | DateEdit(date: string)
    | PurchaseOrderEdit(purchaseOrder: string)
    | SupplierEdit(supplier: string)
    | CostEdit(cost: int)
    | NotesEdit(notes: string)

  function ApplyEdit(d: PurchaseFormData, e: PurchaseEdit): PurchaseFormData
  {
    match e
    case EquipmentTypeEdit(v) => d.(equipmentType := v)
    case QuantityEdit(v) => d.(quantity := v)
    case BaseIdEdit(v) => d.(baseId := v)
    case DateEdit(v) => d.(date := v)
    case PurchaseOrderEdit(v) => d.(purchaseOrder := v)
    case SupplierEdit(v) => d.(supplier := v)
    case CostEdit(v) => d.(cost := v)
    case NotesEdit(v) => d.(notes := Some(v))
  }

  /** The error dictionary, one optional message per validated input name;
      the notes input is never validated, so it has no entry. */
  datatype PurchaseErrors = PurchaseErrors(
    equipmentType: Option<string>, quantity: Option<string>, baseId: Option<string>,
    date: Option<string>, purchaseOrder: Option<string>, supplier: Option<string>,
    cost: Option<string>)

  const NoPurchaseErrors := PurchaseErrors(None, None, None, None, None, None, None)

  /** `Object.keys(errors).length === 0`. */
  predicate PurchaseErrorsEmpty(e: PurchaseErrors)
  {
    e == NoPurchaseErrors
  }

  /** The errors after `handleChange` edited one input: only that input's
      entry is cleared (the notes input has none). */
  function ClearEditedError(errs: PurchaseErrors, e: PurchaseEdit): PurchaseErrors
  {
    match e
    case EquipmentTypeEdit(_) => errs.(equipmentType := Cleared(errs.equipmentType))
    case QuantityEdit(_) => errs.(quantity := Cleared(errs.quantity))
    case BaseIdEdit(_) => errs.(baseId := Cleared(errs.baseId))
    case DateEdit(_) => errs.(date := Cleared(errs.date))
    case PurchaseOrderEdit(_) => errs.(purchaseOrder := Cleared(errs.purchaseOrder))
    case SupplierEdit(_) => errs.(supplier := Cleared(errs.supplier))
    case CostEdit(_) => errs.(cost := Cleared(errs.cost))
    case NotesEdit(_) => errs
  }

  const EquipmentTypeRequired := "Equipment type is required"
  const QuantityPositive := "Quantity must be greater than 0"
  const BaseRequired := "Base is required"
  const DateRequired := "Date is required"
  const PurchaseOrderRequired := "Purchase order is required"
  const SupplierRequired := "Supplier is required"
  const CostPositive := "Cost must be greater than 0"

  /** A purchase draft the form accepts. */
  predicate PurchaseValid(d: PurchaseFormData)
  {
    d.quantity > 0 && d.baseId != "" && d.date != "" && d.purchaseOrder != ""
    && d.supplier != "" && d.cost > 0
  }

  /** The verdict on each input: a required text input fails when empty, the
      quantity and the cost when not positive. The equipment type is always
      one of the five non-empty literals, so it never fails. The form is
      accepted exactly when no input fails. */
  function PurchaseErrorsOf(d: PurchaseFormData): (errs: PurchaseErrors)
    ensures errs.equipmentType == None
    ensures PurchaseErrorsEmpty(errs) <==> PurchaseValid(d)
  {
    PurchaseErrors(
      None,
      if d.quantity <= 0 then Some(QuantityPositive) else None,
      if d.baseId == "" then Some(BaseRequired) else None,
      if d.date == "" then Some(DateRequired) else None,
      if d.purchaseOrder == "" then Some(PurchaseOrderRequired) else None,
      if d.supplier == "" then Some(SupplierRequired) else None,
      if d.cost <= 0 then Some(CostPositive) else None)
  }

  class PurchaseFormState {
    var formData: PurchaseFormData
    var errors: PurchaseErrors

    constructor (today: string)
      ensures formData == InitialPurchaseForm(today) && errors == NoPurchaseErrors
    {
      formData := InitialPurchaseForm(today);
      errors := NoPurchaseErrors;
    }

    /** `handleChange`: store the new value of the edited input and clear
        that input's error if it was set. */
    method HandleChange(e: PurchaseEdit)
      modifies this
      ensures formData == ApplyEdit(old(formData), e)
      ensures errors == ClearEditedError(old(errors), e)
    {
      formData := ApplyEdit(formData, e);
      errors := ClearEditedError(errors, e);
    }

    /** `validateForm`: build the error dictionary check by check, store it,
        and report whether it is empty. */
    method ValidateForm() returns (ok: bool)
      modifies this`errors
      ensures errors == PurchaseErrorsOf(formData)
      ensures ok <==> PurchaseValid(formData)
    {
      var newErrors := NoPurchaseErrors;
      if EquipmentTypeName(formData.equipmentType) == "" {
        newErrors := newErrors.(equipmentType := Some(EquipmentTypeRequired));
      }
      if formData.quantity <= 0 {
        newErrors := newErrors.(quantity := Some(QuantityPositive));
      }
      if formData.baseId == "" {
        newErrors := newErrors.(baseId := Some(BaseRequired));
      }
      if formData.date == "" {
        newErrors := newErrors.(date := Some(DateRequired));
      }
      if formData.purchaseOrder == "" {
        newErrors := newErrors.(purchaseOrder := Some(PurchaseOrderRequired));
      }
      if formData.supplier == "" {
        newErrors := newErrors.(supplier := Some(SupplierRequired));
      }
      if formData.cost <= 0 {
        newErrors := newErrors.(cost := Some(CostPositive));
      }
      errors := newErrors;
      ok := PurchaseErrorsEmpty(newErrors);
    }

    /** `handleSubmit`: validate, and hand the current data to `onSubmit`
        only when there is no error. The result is what `onSubmit` received,
        or None when it was not called. */
    method HandleSubmit() returns (submitted: Option<PurchaseFormData>)
      modifies this`errors
      ensures errors == PurchaseErrorsOf(formData)
      ensures submitted == if PurchaseValid(formData) then Some(formData) else None
    {
      var ok := ValidateForm();
      submitted := if ok then Some(formData) else None;
    }
  }

  /** The initial form is rejected: its quantity and cost are 0 and its base,
      order number and supplier are empty. */
  lemma InitialPurchaseFormInvalid(today: string)
    ensures var errs := PurchaseErrorsOf(InitialPurchaseForm(today));
            errs.quantity.Some? && errs.baseId.Some? && errs.purchaseOrder.Some?
            && errs.supplier.Some? && errs.cost.Some? && !PurchaseValid(InitialPurchaseForm(today))
  {
  }

  /** Editing the notes never changes the verdict on the draft: the notes are
      stored and handed on, but never validated. */
  lemma NotesNeverValidated(d: PurchaseFormData, notes: string)
    ensures PurchaseErrorsOf(ApplyEdit(d, NotesEdit(notes))) == PurchaseErrorsOf(d)
    ensures PurchaseValid(ApplyEdit(d, NotesEdit(notes))) == PurchaseValid(d)
    ensures ApplyEdit(d, NotesEdit(notes)).notes == Some(notes)
  {
  }
}
