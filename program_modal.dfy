/** The program edit modal: the form reset with its defaults when it opens,
    and the save that closes it only on success. */
module ProgramModal {
  import opened Common
  import opened ModalForm

  const REQUIREMENTS: string := "requirements"

  /** The form of a new program. */
  const NEW_PROGRAM: map<string, Json> := map[
    "title" := JStr(""), "category" := JStr("career"), "subtitle" := JStr(""),
    "image_url" := JStr(""), "department" := JStr("IT Division"),
    "location" := JStr("Remote"), "type" := JStr("Full-time"),
    "description" := JStr(""), "status" := JStr("draft")]

  /** `record[key] || fallback`. */
  function OrDefault(record: map<string, Json>, key: string, fallback: Json): (r: Json)
    ensures r == fallback || (key in record && r == record[key] && Truthy(r))
  {
    if key in record && Truthy(record[key]) then record[key] else fallback
  }

  /** `{ ...program, subtitle: …, category: …, image_url: … }`. */
  function WithDefaults(program: map<string, Json>): map<string, Json>
  {
    program["subtitle" := OrDefault(program, "subtitle", JStr(""))]
           ["category" := OrDefault(program, "category", JStr("career"))]
           ["image_url" := OrDefault(program, "image_url", JStr(""))]
  }

  /** The form the effect sets for `program` (None for a new program). */
  function FormFor(program: Option<map<string, Json>>): Form
  {
    if program.Some? then Load(WithDefaults(program.value), REQUIREMENTS) else Form(NEW_PROGRAM, "")
  }

  class ProgramModalState {
    var form: Form
    var loading: bool
    /** Whether `onClose` has been called. */
    var closed: bool

    constructor ()
      ensures form == FormFor(None) && !loading && !closed
    {
      form := FormFor(None);
      loading := false;
      closed := false;
    }

    /** The effect on `[program, isOpen]`: the form is overwritten. */
    method Reset(program: Option<map<string, Json>>)
      modifies this
      ensures form == FormFor(program)
      ensures loading == old(loading) && closed == old(closed)
    {
      form := FormFor(program);
    }

    /** `handleSubmit`: `onSave` gets the payload and settled with `saved`;
        the modal closes only when it succeeded, and `loading` ends false
        either way. */
    method Submit(saved: Result<()>) returns (payload: map<string, Json>)
      modifies this
      ensures payload == Payload(old(form), REQUIREMENTS)
      ensures closed == (old(closed) || saved.Ok?)
      ensures !loading && form == old(form)
    {
      loading := true;
      payload := Payload(form, REQUIREMENTS);
      if saved.Ok? {
        closed := true;
      }
      loading := false;
    }
  }

  /** A new program submits its defaults with an empty requirements list. */
  lemma NewProgramPayload()
    ensures Payload(FormFor(None), REQUIREMENTS) == NEW_PROGRAM[REQUIREMENTS := JArr([])]
  {
    NotAListSubmitsEmpty(map[], REQUIREMENTS);
  }

  /** Opening a program: a missing or falsy subtitle or image URL becomes
      `''` and a missing or falsy category `'career'`; every other field but
      the requirements is kept as it is. */
  lemma EditDefaults(program: map<string, Json>)
    ensures var f := FormFor(Some(program)).fields;
      && f.Keys == program.Keys + {"subtitle", "category", "image_url"} - {REQUIREMENTS}
      && f["subtitle"] == (if "subtitle" in program && Truthy(program["subtitle"]) then program["subtitle"] else JStr(""))
      && f["category"] == (if "category" in program && Truthy(program["category"]) then program["category"] else JStr("career"))
      && f["image_url"] == (if "image_url" in program && Truthy(program["image_url"]) then program["image_url"] else JStr(""))
      && forall k :: k in program && k !in {"subtitle", "category", "image_url", REQUIREMENTS} ==> f[k] == program[k]
  {
  }

  /** A program whose subtitle, category and image URL are set and whose
      requirements are each one non-blank line saves back unchanged. */
  lemma EditRoundTrip(program: map<string, Json>)
    requires forall k :: k in {"subtitle", "category", "image_url"} ==> k in program && Truthy(program[k])
    requires ListOf(program, REQUIREMENTS).List? && Editable(ListOf(program, REQUIREMENTS).items)
    ensures Payload(FormFor(Some(program)), REQUIREMENTS) == program
  {
    var w := WithDefaults(program);
    assert w.Keys == program.Keys;
    forall k | k in w
      ensures w[k] == program[k]
    {
    }
    assert w == program;
    RecordRoundTrip(program, REQUIREMENTS);
  }
}
