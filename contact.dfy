/**
 * The contact form: a record of seven text fields, seeded with the service
 * chosen elsewhere on the page, updated one field per change event, and a
 * `submitted` flag that selects the submit button's label.
 *
 * The record is a map from field name to value, as the source's object with
 * a computed key is: a change event may name any field.
 */
module Contact {
  import opened Wrappers

  type FormData = map<string, string>

  /** The form's field names. */
  const FieldNames: seq<string> := ["name", "email", "phone", "service", "date", "guests", "message"]

  const SubmittedLabel: string := "INQUIRY SUBMITTED \U{2713}"
  const SubmitLabel: string := "SUBMIT INQUIRY"

  /** `selectedService || ''`: an absent service and an empty one both give ''. */
  function InitialService(selectedService: Option<string>): (r: string)
    ensures selectedService.Some? ==> r == selectedService.value
    ensures selectedService.None? ==> r == ""
  {
    selectedService.GetOr("")
  }

  /** The initial `formData`: every field empty except the service. */
  function InitialForm(selectedService: Option<string>): (f: FormData)
    ensures f.Keys == set k | k in FieldNames
    ensures forall k :: k in f && k != "service" ==> f[k] == ""
    ensures f["service"] == InitialService(selectedService)
  {
    map[ "name" := "", "email" := "", "phone" := "", "service" := InitialService(selectedService),
         "date" := "", "guests" := "", "message" := "" ]
  }

  /** `{ ...formData, [name]: value }`. */
  function Changed(form: FormData, name: string, value: string): (r: FormData)
    ensures r.Keys == form.Keys + {name}
    ensures r[name] == value
    ensures forall k :: k in form && k != name ==> r[k] == form[k]
  {
    form[name := value]
  }

  /** Repeating the same change event gives the record the first one gave. */
  lemma ChangeIsIdempotent(form: FormData, name: string, value: string)
    ensures Changed(Changed(form, name, value), name, value) == Changed(form, name, value)
  {
  }

  /** A change event for one of the form's own fields keeps the set of fields. */
  lemma ChangeKeepsFields(selectedService: Option<string>, name: string, value: string)
    requires name in FieldNames
    ensures Changed(InitialForm(selectedService), name, value).Keys == InitialForm(selectedService).Keys
  {
  }

  /** The submit button's label. */
  function ButtonLabel(submitted: bool): (r: string)
    ensures r == SubmittedLabel <==> submitted
    ensures r == SubmitLabel <==> !submitted
  {
    if submitted then SubmittedLabel else SubmitLabel
  }

  /**
   * One form instance. The service prop is read only by the constructor, so
   * a later change of the page's selected service leaves the form as it is.
   */
  class ContactForm {
    var formData: FormData
    var submitted: bool

    constructor (selectedService: Option<string>)
      ensures formData == InitialForm(selectedService) && !submitted
    {
      formData := InitialForm(selectedService);
      submitted := false;
    }

    /** `handleChange`: replace one field's value. */
    method HandleChange(name: string, value: string)
      modifies this
      ensures formData == Changed(old(formData), name, value)
      ensures submitted == old(submitted)
    {
      formData := formData[name := value];
    }

    /** `handleSubmit`: mark the inquiry as submitted; the record is not touched. */
    method HandleSubmit()
      modifies this
      ensures submitted
      ensures formData == old(formData)
    {
      submitted := true;
    }
  }
}
