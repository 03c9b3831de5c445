/**
 * The registration record a visitor submits with the ticket form, and the
 * normalisation of its blank optional fields that precedes every order.
 */
module Registration {
  import opened Wrappers

  /** The text that replaces a blank university id or university name. */
  const NotApplicable: string := "N/A"

  /**
   * The form's values. The university fields are optional: the form library
   * may leave them undefined (None) or deliver the empty string.
   */
  datatype RegistrationData = RegistrationData(
    name: string,
    email: string,
    contact_no: string,
    uni_id: Option<string>,
    uni_name: Option<string>,
    where_you_reside: string)

  /** An optional field that is present and strictly equal to the empty string. */
  predicate IsBlank(field: Option<string>) {
    field == Some("")
  }

  /** A record with no blank optional field, as every order payload must be. */
  predicate IsNormalized(d: RegistrationData) {
    !IsBlank(d.uni_id) && !IsBlank(d.uni_name)
  }

  function FillBlank(field: Option<string>): Option<string> {
    if IsBlank(field) then Some(NotApplicable) else field
  }

  /**
   * The record after normalisation: a blank university id or name becomes
   * "N/A", an absent or non-empty one is kept, and no other field changes.
   */
  function Normalized(d: RegistrationData): (r: RegistrationData)
    ensures IsNormalized(r)
    ensures r.name == d.name && r.email == d.email && r.contact_no == d.contact_no
    ensures r.where_you_reside == d.where_you_reside
    ensures IsBlank(d.uni_id) ==> r.uni_id == Some(NotApplicable)
    ensures !IsBlank(d.uni_id) ==> r.uni_id == d.uni_id
    ensures IsBlank(d.uni_name) ==> r.uni_name == Some(NotApplicable)
    ensures !IsBlank(d.uni_name) ==> r.uni_name == d.uni_name
  {
    d.(uni_id := FillBlank(d.uni_id), uni_name := FillBlank(d.uni_name))
  }

  /** Normalisation changes exactly the records that are not yet normal. */
  lemma NormalizedFixesExactlyNormalRecords(d: RegistrationData)
    ensures Normalized(d) == d <==> IsNormalized(d)
    ensures Normalized(Normalized(d)) == Normalized(d)
  {
  }

  /**
   * The form object handed to the submit handler; the handler rewrites its
   * university fields in place before it is sent.
   */
  class FormData {
    var name: string
    var email: string
    var contact_no: string
    var uni_id: Option<string>
    var uni_name: Option<string>
    var where_you_reside: string

    /** The record the object currently holds. */
    function Value(): RegistrationData
      reads this
    {
      RegistrationData(name, email, contact_no, uni_id, uni_name, where_you_reside)
    }

    constructor (d: RegistrationData)
      ensures Value() == d
    {
      name := d.name;
      email := d.email;
      contact_no := d.contact_no;
      uni_id := d.uni_id;
      uni_name := d.uni_name;
      where_you_reside := d.where_you_reside;
    }
  }
}
