/** The mobile "Add New Greenhouse" screen: per-field required checks, the
    create request with the status `inactive`, and the error shown under
    the name field when creation fails. `parseFloat` is a function
    parameter; going back in the router is reported as an output. */
module NewGreenhouse {
  import opened Js
  import opened JsText
  import opened Domain

  /** `FormErrors`: an optional message per field. */
  datatype FormErrors = FormErrors(name: Option<string>, size: Option<string>)
  {
    /** `Object.keys(errors).length > 0`. */
    predicate HasAny() {
      name.Some? || size.Some?
    }
  }

  const NoErrors := FormErrors(None, None)

  /** The `{ name, size, status }` posted to create a greenhouse. */
  datatype NewGreenhouseRequest = NewGreenhouseRequest(name: string, size: JsNumber, status: GreenhouseStatus)

  /** The fields of the create call's JSON body read on failure. */
  datatype CreateBody = CreateBody(detail: Option<string>)

  const NameRequired := "Name is required"
  const SizeRequired := "Size is required"
  const CreateFailed := "Failed to create greenhouse"
  const CreateFailedRetry := "Failed to create greenhouse. Please try again."

  /** The errors the two independent checks report. */
  function Validate(form: GreenhouseForm): (r: FormErrors)
    ensures r.name.Some? <==> IsBlank(form.name)
    ensures r.size.Some? <==> IsBlank(form.size)
    ensures r.name.Some? ==> r.name.value == NameRequired
    ensures r.size.Some? ==> r.size.value == SizeRequired
  {
    FormErrors(
      if IsBlank(form.name) then Some(NameRequired) else None,
      if IsBlank(form.size) then Some(SizeRequired) else None)
  }

  /** The handler's field-by-field construction of `newErrors`. */
  method CollectErrors(form: GreenhouseForm) returns (newErrors: FormErrors)
    ensures newErrors == Validate(form)
  {
    newErrors := NoErrors;
    if IsBlank(form.name) {
      newErrors := newErrors.(name := Some(NameRequired));
    }
    if IsBlank(form.size) {
      newErrors := newErrors.(size := Some(SizeRequired));
    }
  }

  /** Each field's error depends on that field alone, so both can be
      reported at once. */
  lemma {:induction false} ChecksAreIndependent(f: GreenhouseForm, g: GreenhouseForm)
    ensures f.name == g.name ==> Validate(f).name == Validate(g).name
    ensures f.size == g.size ==> Validate(f).size == Validate(g).size
    ensures Validate(GreenhouseForm(" ", "")) == FormErrors(Some(NameRequired), Some(SizeRequired))
  {
    assert AllWhitespace(" ");
    assert AllWhitespace("");
  }

  /** The size is only required to be non-blank: text that is not a
      number, or a negative number, passes the checks and is sent as
      `parseFloat` reads it. */
  lemma {:induction false} SizeIsNotChecked()
    ensures !Validate(GreenhouseForm("GH-Test", "abc")).HasAny()
    ensures !Validate(GreenhouseForm("GH-Test", "-5")).HasAny()
  {
    assert !IsWhitespace("abc"[0]) && !IsWhitespace("-5"[0]) && !IsWhitespace("GH-Test"[0]);
  }

  /** What the `catch` block stores under the name field. */
  function CaughtMessage(thrown: Thrown): (r: string)
    ensures thrown.ErrorValue? ==> r == thrown.message
    ensures thrown.OtherValue? ==> r == CreateFailedRetry
  {
    match thrown
    case ErrorValue(m) => m
    case OtherValue => CreateFailedRetry
  }

  /** Every failure of the create call is reported under `name` alone:
      a non-OK reply with its `detail` or the default, a thrown error with
      its message. */
  function FailureErrors(reply: Reply<CreateBody>): (r: FormErrors)
    requires !reply.IsOk()
    ensures r.size.None? && r.name.Some?
    ensures reply.Answered? ==> r.name.value == OrElse(reply.data.detail, CreateFailed) && r.name.value != ""
    ensures reply.Threw? ==> r.name.value == CaughtMessage(reply.thrown)
  {
    match reply
    case Answered(_, data) => FormErrors(Some(OrElse(data.detail, CreateFailed)), None)
    case Threw(thrown) => FormErrors(Some(CaughtMessage(thrown)), None)
  }

  class NewGreenhouseScreen {
    var formData: GreenhouseForm
    var errors: FormErrors
    var loading: bool

    constructor ()
      ensures formData == EmptyGreenhouseForm && errors == NoErrors && !loading
    {
      formData := EmptyGreenhouseForm;
      errors := NoErrors;
      loading := false;
    }

    /** The submit handler. `parseFloat` is the global of that name, and
        `reply` is how the POST settles (ignored when nothing is sent). */
    method HandleSubmit(parseFloat: string -> JsNumber, reply: Reply<CreateBody>)
      returns (request: Option<NewGreenhouseRequest>, wentBack: bool)
      modifies this`errors, this`loading
      ensures request.Some? <==> !Validate(formData).HasAny()
      ensures request.Some? ==>
        request.value == NewGreenhouseRequest(Trim(formData.name), parseFloat(formData.size), Inactive)
      ensures wentBack <==> request.Some? && reply.IsOk()
      // refused by validation: the errors are shown and loading is never touched
      ensures request.None? ==> errors == Validate(formData) && loading == old(loading)
      ensures request.Some? ==> !loading
      ensures request.Some? && reply.IsOk() ==> errors == NoErrors
      ensures request.Some? && !reply.IsOk() ==> errors == FailureErrors(reply)
    {
      request, wentBack := None, false;
      errors := NoErrors;
      var form := formData;
      var newErrors := CollectErrors(form);
      if newErrors.HasAny() {
        errors := newErrors;
      } else {
        loading := true;
        request := Some(NewGreenhouseRequest(Trim(form.name), parseFloat(form.size), Inactive));
        if reply.IsOk() {
          wentBack := true;
        } else {
          errors := FailureErrors(reply);
        }
        loading := false;
      }
    }
  }
}
