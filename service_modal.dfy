/** The service edit modal: the form reset when it opens, and the save that
    closes it only on success. */
module ServiceModal {
  import opened Common
  import opened ModalForm

  const BENEFITS: string := "benefits"

  /** The form of a new service. */
  const NEW_SERVICE: map<string, Json> := map[
    "title" := JStr(""), "subtitle" := JStr(""), "description" := JStr(""),
    "category" := JStr("it-solutions"), "status" := JStr("draft")]

  /** The form the effect sets for `service` (None for a new service). */
  function FormFor(service: Option<map<string, Json>>): Form
  {
    if service.Some? then Load(service.value, BENEFITS) else Form(NEW_SERVICE, "")
  }

  class ServiceModalState {
    var form: Form
    var loading: bool
    /** Whether `onClose` has been called. */
    var closed: bool

    constructor ()
      ensures form == FormFor(None) && !loading && !closed
    {
      form := FormFor(None);
      loading := false;
      closed := false;
    }

    /** The effect on `[service, isOpen]`: the form is overwritten. */
    method Reset(service: Option<map<string, Json>>)
      modifies this
      ensures form == FormFor(service)
      ensures loading == old(loading) && closed == old(closed)
    {
      form := FormFor(service);
    }

    /** `handleSubmit`: `onSave` gets the payload and settled with `saved`;
        the modal closes only when it succeeded, and `loading` ends false
        either way. */
    method Submit(saved: Result<()>) returns (payload: map<string, Json>)
      modifies this
      ensures payload == Payload(old(form), BENEFITS)
      ensures closed == (old(closed) || saved.Ok?)
      ensures !loading && form == old(form)
    {
      loading := true;
      payload := Payload(form, BENEFITS);
      if saved.Ok? {
        closed := true;
      }
      loading := false;
    }
  }

  /** A new service submits its defaults with an empty benefits list. */
  lemma NewServicePayload()
    ensures Payload(FormFor(None), BENEFITS) == NEW_SERVICE[BENEFITS := JArr([])]
  {
    NotAListSubmitsEmpty(map[], BENEFITS);
  }

  /** Opening a service keeps all of its fields but the benefits, and
      saving it unchanged gives back the same service when each benefit is
      one non-blank line; a service without a benefits list saves an empty
      one. */
  lemma EditRoundTrip(service: map<string, Json>)
    ensures FormFor(Some(service)).fields == service - {BENEFITS}
    ensures ListOf(service, BENEFITS).List? && Editable(ListOf(service, BENEFITS).items) ==>
      Payload(FormFor(Some(service)), BENEFITS) == service
    ensures ListOf(service, BENEFITS).NotAList? ==>
      Payload(FormFor(Some(service)), BENEFITS)[BENEFITS] == JArr([])
  {
    if ListOf(service, BENEFITS).List? && Editable(ListOf(service, BENEFITS).items) {
      RecordRoundTrip(service, BENEFITS);
    }
    if ListOf(service, BENEFITS).NotAList? {
      NotAListSubmitsEmpty(service, BENEFITS);
    }
  }
}
