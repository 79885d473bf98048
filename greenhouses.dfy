/** The web greenhouse list screen: its fetch on mount, the "add greenhouse"
    modal and the submit handler that validates the form, posts it and
    appends the created greenhouse. The auth token in `localStorage`, the
    response, and `Number()` (a function parameter) are inputs; a redirect
    to `/` is reported as an output. */
module Greenhouses {
  import opened Js
  import opened JsText
  import opened Domain

  /** The record this screen lists (its own `Greenhouse` interface). */
  datatype ListedGreenhouse = ListedGreenhouse(id: int, name: string, size: real)

  /** The JSON body of the create call: read as the new greenhouse when the
      response is OK, and for its `message` field when it is not. */
  datatype CreateBody = CreateBody(created: ListedGreenhouse, message: Option<string>)

  /** The `{ name, size }` posted to create a greenhouse. */
  datatype CreateRequest = CreateRequest(name: string, size: JsNumber)

  const NameRequired := "Name is required"
  const SizeInvalid := "Size must be a positive number"
  const CreateFailed := "Failed to create greenhouse"
  const CreateFailedRetry := "Failed to create greenhouse. Please try again."

  /** The size check passes: the text is not blank, `Number(size)` is not
      `NaN` and it is not `<= 0`. */
  predicate SizeAccepted(size: string, toNumber: string -> JsNumber)
    ensures SizeAccepted(size, toNumber) <==>
      !AllWhitespace(size) && (toNumber(size) == PlusInfinity || (toNumber(size).Finite? && toNumber(size).value > 0.0))
  {
    !IsBlank(size) && !IsNaN(toNumber(size)) && !AtMost(toNumber(size), 0.0)
  }

  /** The message the two validation checks leave, name first. */
  function FormError(form: GreenhouseForm, toNumber: string -> JsNumber): (r: Option<string>)
    ensures r.None? <==> !IsBlank(form.name) && SizeAccepted(form.size, toNumber)
    ensures r.Some? ==> r.value in {NameRequired, SizeInvalid}
  {
    if IsBlank(form.name) then Some(NameRequired)
    else if !SizeAccepted(form.size, toNumber) then Some(SizeInvalid)
    else None
  }

  /** The name check runs first: when both fields are invalid only the name
      error is shown, and the size error is shown only for a good name. */
  lemma {:induction false} NameErrorFirst(form: GreenhouseForm, toNumber: string -> JsNumber)
    ensures IsBlank(form.name) ==> FormError(form, toNumber) == Some(NameRequired)
    ensures FormError(form, toNumber) == Some(SizeInvalid)
      <==> !IsBlank(form.name) && !SizeAccepted(form.size, toNumber)
  {
  }

  /** A size that is all whitespace, or a number that is not positive, is
      refused: `NaN`, zero and the negative numbers, finite or not. */
  lemma {:induction false} SizeRefusals(size: string, toNumber: string -> JsNumber)
    ensures AllWhitespace(size) ==> !SizeAccepted(size, toNumber)
    ensures toNumber(size) == NotANumber ==> !SizeAccepted(size, toNumber)
    ensures toNumber(size) == MinusInfinity ==> !SizeAccepted(size, toNumber)
    ensures (toNumber(size).Finite? && toNumber(size).value <= 0.0) ==> !SizeAccepted(size, toNumber)
    ensures SizeAccepted(size, toNumber) ==> AtLeast(toNumber(size), 0.0) && toNumber(size) != Finite(0.0)
  {
  }

  /** The body of the create request: the trimmed name and `Number(size)`. */
  function RequestFor(form: GreenhouseForm, toNumber: string -> JsNumber): (r: CreateRequest)
    ensures r.name == Trim(form.name) && r.size == toNumber(form.size)
  {
    CreateRequest(Trim(form.name), toNumber(form.size))
  }

  /** A request built from a form that passed validation carries a name
      that is not empty and has no whitespace at either end. */
  lemma {:induction false} RequestNameIsTrimmed(form: GreenhouseForm, toNumber: string -> JsNumber)
    requires FormError(form, toNumber).None?
    ensures var n := RequestFor(form, toNumber).name;
      n != "" && !IsWhitespace(n[0]) && !IsWhitespace(n[|n| - 1]) && Trim(n) == n
  {
    TrimIdempotent(form.name);
    TrimEnds(form.name);
  }

  /** The message shown when the create call does not succeed. */
  function FailureMessage(reply: Reply<CreateBody>): (r: string)
    requires !reply.IsOk()
    ensures reply.Answered? ==> r == OrElse(reply.data.message, CreateFailed)
    ensures reply.Threw? ==> r == CreateFailedRetry
    ensures r != ""
  {
    if reply.Answered? then OrElse(reply.data.message, CreateFailed) else CreateFailedRetry
  }

  class GreenhousesScreen {
    var greenhouses: seq<ListedGreenhouse>
    var loading: bool
    var showModal: bool
    var formData: GreenhouseForm
    var error: Option<string>
    var isSubmitting: bool

    /** The `useState` initial values. */
    constructor ()
      ensures greenhouses == [] && loading && !showModal
      ensures formData == EmptyGreenhouseForm && error == None && !isSubmitting
    {
      greenhouses := [];
      loading := true;
      showModal := false;
      formData := EmptyGreenhouseForm;
      error := None;
      isSubmitting := false;
    }

    /** The fetch on mount: without a token the page goes to `/`; an OK
        reply replaces the list; `loading` ends false on every path. */
    method FetchGreenhouses(token: Option<string>, reply: Reply<seq<ListedGreenhouse>>)
      returns (redirected: bool, requested: bool)
      modifies this`greenhouses, this`loading
      ensures !loading
      ensures redirected <==> !Truthy(token)
      ensures requested <==> Truthy(token)
      ensures greenhouses == if requested && reply.IsOk() then reply.data else old(greenhouses)
    {
      redirected, requested := false, false;
      if !Truthy(token) {
        redirected := true;
      } else {
        requested := true;
        if reply.IsOk() {
          greenhouses := reply.data;
        }
      }
      loading := false;
    }

    method HandleAddGreenhouse()
      modifies this`showModal
      ensures showModal
    {
      showModal := true;
    }

    method HandleCloseModal()
      modifies this`showModal, this`formData, this`error
      ensures !showModal && formData == EmptyGreenhouseForm && error == None
    {
      showModal := false;
      formData := EmptyGreenhouseForm;
      error := None;
    }

    /** The form's submit handler. `token` is what `localStorage` holds,
        `toNumber` is `Number()`, and `reply` is how the POST settles
        (ignored when no request is sent). */
    method HandleSubmit(token: Option<string>, toNumber: string -> JsNumber, reply: Reply<CreateBody>)
      returns (request: Option<CreateRequest>, redirected: bool)
      modifies this`greenhouses, this`showModal, this`formData, this`error, this`isSubmitting
      ensures !isSubmitting
      ensures request.Some? <==> FormError(old(formData), toNumber).None? && Truthy(token)
      ensures request.Some? ==> request.value == RequestFor(old(formData), toNumber)
      ensures redirected <==> FormError(old(formData), toNumber).None? && !Truthy(token)
      // validation failed: the error is shown and nothing else changes
      ensures FormError(old(formData), toNumber).Some? ==>
        && error == FormError(old(formData), toNumber)
        && greenhouses == old(greenhouses) && showModal == old(showModal) && formData == old(formData)
      // no token: the page is left with the error cleared
      ensures redirected ==>
        && error == None
        && greenhouses == old(greenhouses) && showModal == old(showModal) && formData == old(formData)
      // created: appended at the end, modal closed and reset
      ensures request.Some? && reply.IsOk() ==>
        && greenhouses == old(greenhouses) + [reply.data.created]
        && !showModal && formData == EmptyGreenhouseForm && error == None
      // refused or thrown: the list and the form are kept
      ensures request.Some? && !reply.IsOk() ==>
        && error == Some(FailureMessage(reply))
        && greenhouses == old(greenhouses) && showModal == old(showModal) && formData == old(formData)
    {
      request, redirected := None, false;
      error := None;
      isSubmitting := true;
      var invalid := FormError(formData, toNumber);
      if invalid.Some? {
        error := invalid;
      } else if !Truthy(token) {
        redirected := true;
      } else {
        request := Some(RequestFor(formData, toNumber));
        if reply.IsOk() {
          greenhouses := greenhouses + [reply.data.created];
          HandleCloseModal();
        } else {
          error := Some(FailureMessage(reply));
        }
      }
      isSubmitting := false;
    }
  }
}
