/**
 * The transfer entry form (src/components/transfers/TransferForm.tsx). Its
 * validator checks the same-base rule after the required-destination rule,
 * so on `toBaseId` the same-base message wins.
 */
module TransferForm {
  import opened Collections
  import opened Types
  import opened FormErrors

  datatype TransferFormData = TransferFormData(
    equipmentType: EquipmentType, quantity: int, fromBaseId: string, toBaseId: string,
    date: string, notes: string)

  /** The form's initial state; `today` is the current ISO date. */
  function InitialTransferForm(today: string): TransferFormData
  {
    TransferFormData(Weapon, 0, "", "", today, "")
  }

  /** One change event: the input's `name` and its new value. */
  datatype TransferEdit =
    | EquipmentTypeEdit(equipmentType: EquipmentType)
    | QuantityEdit(quantity: int)
    | FromBaseIdEdit(fromBaseId: string)
    | ToBaseIdEdit(toBaseId: string)
    | DateEdit(date: string)
    | NotesEdit(notes: string)

  function ApplyEdit(d: TransferFormData, e: TransferEdit): TransferFormData
  {
    match e
    case EquipmentTypeEdit(v) => d.(equipmentType := v)
    case QuantityEdit(v) => d.(quantity := v)
    case FromBaseIdEdit(v) => d.(fromBaseId := v)
    case ToBaseIdEdit(v) => d.(toBaseId := v)
    case DateEdit(v) => d.(date := v)
    case NotesEdit(v) => d.(notes := v)
  }

  /** The error dictionary, one optional message per validated input; the
      notes input is never validated, so it has no entry. */
  datatype TransferErrors = TransferErrors(
    equipmentType: Option<string>, quantity: Option<string>, fromBaseId: Option<string>,
    toBaseId: Option<string>, date: Option<string>)

  const NoTransferErrors := TransferErrors(None, None, None, None, None)

  /** `Object.keys(errors).length === 0`. */
  predicate TransferErrorsEmpty(e: TransferErrors)
  {
    e == NoTransferErrors
  }

  /** The errors after `handleChange` edited one input: only that input's
      entry is cleared (the notes input has none). */
  function ClearEditedError(errs: TransferErrors, e: TransferEdit): TransferErrors
  {
    match e
    case EquipmentTypeEdit(_) => errs.(equipmentType := Cleared(errs.equipmentType))
    case QuantityEdit(_) => errs.(quantity := Cleared(errs.quantity))
    case FromBaseIdEdit(_) => errs.(fromBaseId := Cleared(errs.fromBaseId))
    case ToBaseIdEdit(_) => errs.(toBaseId := Cleared(errs.toBaseId))
    case DateEdit(_) => errs.(date := Cleared(errs.date))
    case NotesEdit(_) => errs
  }

  const EquipmentTypeRequired := "Equipment type is required"
  const QuantityPositive := "Quantity must be greater than 0"
  const SourceBaseRequired := "Source base is required"
  const DestinationBaseRequired := "Destination base is required"
  const BasesMustDiffer := "Source and destination bases must be different"
  const DateRequired := "Date is required"

  /** A transfer draft the form accepts; the notes play no part. */
  predicate TransferValid(d: TransferFormData)
  {
    d.quantity > 0 && d.fromBaseId != "" && d.toBaseId != ""
    && d.fromBaseId != d.toBaseId && d.date != ""
  }

  /** The verdict on each input. On the destination the same-base rule takes
      precedence over the required rule: equal bases (including two empty
      ones) report that they must differ, an empty destination alone that it
      is required. */
  function TransferErrorsOf(d: TransferFormData): (errs: TransferErrors)
    ensures errs.equipmentType == None
    ensures errs.toBaseId.Some? <==> d.toBaseId == "" || d.fromBaseId == d.toBaseId
    ensures d.fromBaseId == d.toBaseId ==> errs.toBaseId == Some(BasesMustDiffer)
    ensures TransferErrorsEmpty(errs) <==> TransferValid(d)
  {
    TransferErrors(
      None,
      if d.quantity <= 0 then Some(QuantityPositive) else None,
      if d.fromBaseId == "" then Some(SourceBaseRequired) else None,
      if d.fromBaseId == d.toBaseId then Some(BasesMustDiffer)
      else if d.toBaseId == "" then Some(DestinationBaseRequired)
      else None,
      if d.date == "" then Some(DateRequired) else None)
  }

  class TransferFormState {
    var formData: TransferFormData
    var errors: TransferErrors

    constructor (today: string)
      ensures formData == InitialTransferForm(today) && errors == NoTransferErrors
    {
      formData := InitialTransferForm(today);
      errors := NoTransferErrors;
    }

    /** `handleChange`: store the new value of the edited input and clear
        that input's error if it was set. */
    method HandleChange(e: TransferEdit)
      modifies this
      ensures formData == ApplyEdit(old(formData), e)
      ensures errors == ClearEditedError(old(errors), e)
    {
      formData := ApplyEdit(formData, e);
      errors := ClearEditedError(errors, e);
    }

    /** `validateForm`: build the error dictionary check by check (the
        same-base check overwriting the destination entry), store it, and
        report whether it is empty. */
    method ValidateForm() returns (ok: bool)
      modifies this`errors
      ensures errors == TransferErrorsOf(formData)
      ensures ok <==> TransferValid(formData)
    {
      var newErrors := NoTransferErrors;
      if EquipmentTypeName(formData.equipmentType) == "" {
        newErrors := newErrors.(equipmentType := Some(EquipmentTypeRequired));
      }
      if formData.quantity <= 0 {
        newErrors := newErrors.(quantity := Some(QuantityPositive));
      }
      if formData.fromBaseId == "" {
        newErrors := newErrors.(fromBaseId := Some(SourceBaseRequired));
      }
      if formData.toBaseId == "" {
        newErrors := newErrors.(toBaseId := Some(DestinationBaseRequired));
      }
      if formData.fromBaseId == formData.toBaseId {
        newErrors := newErrors.(toBaseId := Some(BasesMustDiffer));
      }
      if formData.date == "" {
        newErrors := newErrors.(date := Some(DateRequired));
      }
      errors := newErrors;
      ok := TransferErrorsEmpty(newErrors);
    }

    /** `handleSubmit`: validate, and hand the current data to `onSubmit`
        only when there is no error. The result is what `onSubmit` received,
        or None when it was not called. */
    method HandleSubmit() returns (submitted: Option<TransferFormData>)
      modifies this`errors
      ensures errors == TransferErrorsOf(formData)
      ensures submitted == if TransferValid(formData) then Some(formData) else None
    {
      var ok := ValidateForm();
      submitted := if ok then Some(formData) else None;
    }
  }

  /** With both bases empty, the source reports that it is required and the
      destination reports the same-base message, not that it is required. */
  lemma BothBasesEmptyReportsSameBase(d: TransferFormData)
    requires d.fromBaseId == "" && d.toBaseId == ""
    ensures TransferErrorsOf(d).fromBaseId == Some(SourceBaseRequired)
    ensures TransferErrorsOf(d).toBaseId == Some(BasesMustDiffer)
    ensures BasesMustDiffer != DestinationBaseRequired
  {
  }

  /** Editing the notes never changes whether the form is accepted, nor any
      error it reports. */
  lemma NotesNeverValidated(d: TransferFormData, notes: string)
    ensures TransferErrorsOf(d.(notes := notes)) == TransferErrorsOf(d)
  {
  }
}
