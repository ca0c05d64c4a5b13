/**
 * The assignment entry form (src/components/assignments/AssignmentForm.tsx):
 * its data, validator, submit handler, and the equipment it offers.
 */
module AssignmentForm {
  import opened Collections
  import opened Types
  import opened FormErrors
  import opened MockData

  datatype AssignmentFormData = AssignmentFormData(
    equipmentId: string, personnelId: string, dateAssigned: string, purpose: string)

  /** The form's initial state; `today` is the current ISO date. */
  function InitialAssignmentForm(today: string): AssignmentFormData
  {
    AssignmentFormData("", "", today, "")
  }

  /** One change event: the input's `name` and its new value. */
  datatype AssignmentEdit =
    | EquipmentIdEdit(equipmentId: string)
    | PersonnelIdEdit(personnelId: string)
    | DateAssignedEdit(dateAssigned: string)
    | PurposeEdit(purpose: string)

  function ApplyEdit(d: AssignmentFormData, e: AssignmentEdit): AssignmentFormData
  {
    match e
    case EquipmentIdEdit(v) => d.(equipmentId := v)
    case PersonnelIdEdit(v) => d.(personnelId := v)
    case DateAssignedEdit(v) => d.(dateAssigned := v)
    case PurposeEdit(v) => d.(purpose := v)
  }

  /** The error dictionary, one optional message per input name. */
  datatype AssignmentErrors = AssignmentErrors(
    equipmentId: Option<string>, personnelId: Option<string>,
    dateAssigned: Option<string>, purpose: Option<string>)

  const NoAssignmentErrors := AssignmentErrors(None, None, None, None)

  /** `Object.keys(errors).length === 0`. */
  predicate AssignmentErrorsEmpty(e: AssignmentErrors)
  {
    e == NoAssignmentErrors
  }

  /** The errors after `handleChange` edited one input: only that input's
      entry is cleared. */
  function ClearEditedError(errs: AssignmentErrors, e: AssignmentEdit): AssignmentErrors
  {
    match e
    case EquipmentIdEdit(_) => errs.(equipmentId := Cleared(errs.equipmentId))
    case PersonnelIdEdit(_) => errs.(personnelId := Cleared(errs.personnelId))
    case DateAssignedEdit(_) => errs.(dateAssigned := Cleared(errs.dateAssigned))
    case PurposeEdit(_) => errs.(purpose := Cleared(errs.purpose))
  }

  const EquipmentRequired := "Equipment is required"
  const PersonnelRequired := "Personnel is required"
  const AssignmentDateRequired := "Assignment date is required"
  const PurposeRequired := "Purpose is required"

  /** An assignment draft the form accepts: every input filled in. */
  predicate AssignmentValid(d: AssignmentFormData)
  {
    d.equipmentId != "" && d.personnelId != "" && d.dateAssigned != "" && d.purpose != ""
  }

  /** The verdict on each input: each one fails exactly when it is empty,
      and the form is accepted exactly when none fails. */
  function AssignmentErrorsOf(d: AssignmentFormData): (errs: AssignmentErrors)
    ensures AssignmentErrorsEmpty(errs) <==> AssignmentValid(d)
  {
    AssignmentErrors(
      if d.equipmentId == "" then Some(EquipmentRequired) else None,
      if d.personnelId == "" then Some(PersonnelRequired) else None,
      if d.dateAssigned == "" then Some(AssignmentDateRequired) else None,
      if d.purpose == "" then Some(PurposeRequired) else None)
  }

  class AssignmentFormState {
    var formData: AssignmentFormData
    var errors: AssignmentErrors

    constructor (today: string)
      ensures formData == InitialAssignmentForm(today) && errors == NoAssignmentErrors
    {
      formData := InitialAssignmentForm(today);
      errors := NoAssignmentErrors;
    }

    /** `handleChange`: store the new value of the edited input and clear
        that input's error if it was set. */
    method HandleChange(e: AssignmentEdit)
      modifies this
      ensures formData == ApplyEdit(old(formData), e)
      ensures errors == ClearEditedError(old(errors), e)
    {
      formData := ApplyEdit(formData, e);
      errors := ClearEditedError(errors, e);
    }

    /** `validateForm`: build the error dictionary check by check, store it,
        and report whether it is empty. */
    method ValidateForm() returns (ok: bool)
      modifies this`errors
      ensures errors == AssignmentErrorsOf(formData)
      ensures ok <==> AssignmentValid(formData)
    {
      var newErrors := NoAssignmentErrors;
      if formData.equipmentId == "" {
        newErrors := newErrors.(equipmentId := Some(EquipmentRequired));
      }
      if formData.personnelId == "" {
        newErrors := newErrors.(personnelId := Some(PersonnelRequired));
      }
      if formData.dateAssigned == "" {
        newErrors := newErrors.(dateAssigned := Some(AssignmentDateRequired));
      }
      if formData.purpose == "" {
        newErrors := newErrors.(purpose := Some(PurposeRequired));
      }
      errors := newErrors;
      ok := AssignmentErrorsEmpty(newErrors);
    }

    /** `handleSubmit`: validate, and hand the current data to `onSubmit`
        only when there is no error. The result is what `onSubmit` received,
        or None when it was not called. */
    method HandleSubmit() returns (submitted: Option<AssignmentFormData>)
      modifies this`errors
      ensures errors == AssignmentErrorsOf(formData)
      ensures submitted == if AssignmentValid(formData) then Some(formData) else None
    {
      var ok := ValidateForm();
      submitted := if ok then Some(formData) else None;
    }
  }

  /** A fresh form is rejected on the equipment, the personnel and the
      purpose, and on the date only when today's date is empty. */
  lemma InitialAssignmentFormInvalid(today: string)
    ensures var errs := AssignmentErrorsOf(InitialAssignmentForm(today));
            errs.equipmentId.Some? && errs.personnelId.Some? && errs.purpose.Some?
            && (errs.dateAssigned.Some? <==> today == "")
  {
  }

  /** The equipment the form offers: the items whose status is available,
      in their original order. */
  function AvailableEquipment(equipment: seq<Equipment>): (r: seq<Equipment>)
    ensures forall i :: 0 <= i < |r| ==> r[i] in equipment && r[i].status == Available
    ensures forall i :: 0 <= i < |equipment| && equipment[i].status == Available ==> equipment[i] in r
    ensures Embeds(r, equipment)
    ensures forall x :: multiset(r)[x] == if x.status == Available then multiset(equipment)[x] else 0
  {
    FilterCounts(equipment, (eq: Equipment) => eq.status == Available);
    FilterEmbeds(equipment, (eq: Equipment) => eq.status == Available);
    Filter(equipment, (eq: Equipment) => eq.status == Available)
  }

  /** With the seeded equipment the form offers the carbine and the
      ammunition; the Humvee is already assigned. */
  lemma SeededAvailableEquipment()
    ensures AvailableEquipment(MockEquipment) == [MockEquipment[0], MockEquipment[2]]
  {
    var keep := (eq: Equipment) => eq.status == Available;
    assert MockEquipment[1..][1..][1..] == [];
    assert Filter(MockEquipment[1..][1..], keep) == [MockEquipment[2]];
    assert Filter(MockEquipment[1..], keep) == [MockEquipment[2]];
  }
}
