/**
 * The field-error dictionary every record form keeps beside its data
 * (`errors: Record<string, string>`). Its keys are always the form's own
 * input names, so each form models it as a record with one optional message
 * per input: None where the dictionary has no key.
 */
module FormErrors {
  import opened Collections
  import opened Types

  /** What `handleChange` does to the entry of the edited field: an error
      that is set (present and non-empty) is overwritten with the empty
      string, so the key stays but no longer shows; otherwise it is left as
      it is. */
  function Cleared(entry: Option<string>): (r: Option<string>)
    ensures r.Some? <==> entry.Some?
    ensures !Truthy(r)
    ensures !Truthy(entry) ==> r == entry
  {
    if Truthy(entry) then Some("") else entry
  }
}
