/** The four-step job / program application wizard: step navigation, the
    per-step validity that enables "Continue", the resume upload, and the
    submission assembled from the form. */
module ApplicationPage {
  import opened Common
  import opened Text
  import opened Leads

  const TOTAL_STEPS: int := 4

  datatype ApplicationForm = ApplicationForm(
    name: string,
    email: string,
    phone: string,
    resume: Option<FileInfo>,
    resumeName: string,
    expertise: string,
    experience: string,
    linkedin: string,
    portfolio: string,
    workAuthorization: string,
    consentGiven: bool)

  const EMPTY_FORM: ApplicationForm :=
    ApplicationForm("", "", "", None, "", "", "", "", "", "", false)

  /** `isStepValid`. */
  predicate StepValid(step: int, f: ApplicationForm)
  {
    if step == 1 then Trim(f.name) != "" && Trim(f.email) != "" && f.resumeName != ""
    else if step == 2 then Trim(f.expertise) != "" && f.experience != ""
    else if step == 3 then f.workAuthorization != "" && f.consentGiven
    else true
  }

  /** The buttons of the bottom navigation. */
  predicate ShowsPrevious(step: int) { step > 1 }
  predicate ShowsContinue(step: int) { step < TOTAL_STEPS }
  predicate ContinueEnabled(step: int, f: ApplicationForm) { StepValid(step, f) }
  predicate ShowsSubmit(step: int) { !(step < TOTAL_STEPS) }
  predicate SubmitDisabled(isSubmitting: bool, f: ApplicationForm) { isSubmitting || !f.consentGiven }

  /** The lines of the message, in order: expertise, experience and work
      authorization always, then LinkedIn, portfolio and the resume name when
      they are filled in. */
  function MessageLines(f: ApplicationForm): seq<string>
  {
    ["Expertise: " + f.expertise, "Experience: " + f.experience, "Work Auth: " + f.workAuthorization]
    + (if f.linkedin != "" then ["LinkedIn: " + f.linkedin] else [])
    + (if f.portfolio != "" then ["Portfolio: " + f.portfolio] else [])
    + (if f.resumeName != "" then ["Resume attached: " + f.resumeName] else [])
  }

  /** The message as `handleSubmit` builds it, one `+=` at a time. */
  method ComposeMessage(f: ApplicationForm) returns (message: string)
    ensures message == JoinLines(MessageLines(f))
  {
    var expertise, experience, auth := "Expertise: " + f.expertise, "Experience: " + f.experience, "Work Auth: " + f.workAuthorization;
    message := expertise + "\n" + experience + "\n" + auth;
    Join3(expertise, experience, auth, '\n');
    ghost var lines := [expertise, experience, auth];
    if f.linkedin != "" {
      var linkedin := "LinkedIn: " + f.linkedin;
      message := AppendLine(message, linkedin, lines);
      lines := lines + [linkedin];
    }
    if f.portfolio != "" {
      var portfolio := "Portfolio: " + f.portfolio;
      message := AppendLine(message, portfolio, lines);
      lines := lines + [portfolio];
    }
    if f.resumeName != "" {
      var resume := "Resume attached: " + f.resumeName;
      message := AppendLine(message, resume, lines);
      lines := lines + [resume];
    }
    assert lines == MessageLines(f);
  }

  /** `source_type`: a general application, else a student program when
      the path has `/students/`, else a job. */
  function SourceType(id: string, pathname: string): string
  {
    if id == "general" then "general_application"
    else if Contains(pathname, "/students/") then "student_program"
    else "job"
  }

  /** `source_id`: null for a general application, the route id otherwise. */
  function SourceId(id: string): Option<string>
  {
    if id == "general" then None else Some(id)
  }

  /** The submission `handleSubmit` sends. */
  function BuildSubmission(f: ApplicationForm, id: string, pathname: string): Submission
  {
    var n := SplitName(f.name);
    Submission(n.first, n.last, f.email, EmptyToNull(f.phone), JoinLines(MessageLines(f)),
               SourceType(id, pathname), SourceId(id))
  }

  /** The submission as `handleSubmit` assembles it: the trimmed name split
      at its first space, the message built line by line. */
  method AssembleSubmission(f: ApplicationForm, id: string, pathname: string) returns (sent: Submission)
    ensures sent == BuildSubmission(f, id, pathname)
  {
    var n := SplitName(f.name);
    var message := ComposeMessage(f);
    sent := Submission(n.first, n.last, f.email, EmptyToNull(f.phone), message,
                       SourceType(id, pathname), SourceId(id));
  }

  /** The wizard's state. */
  class ApplicationWizard {
    var step: int
    var form: ApplicationForm
    var isSubmitting: bool
    var isSuccess: bool

    ghost predicate Valid()
      reads this
    {
      1 <= step <= TOTAL_STEPS
    }

    constructor ()
      ensures Valid()
      ensures step == 1 && form == EMPTY_FORM && !isSubmitting && !isSuccess
    {
      step := 1;
      form := EMPTY_FORM;
      isSubmitting := false;
      isSuccess := false;
    }

    /** `handleNext`: `Math.min(prev + 1, totalSteps)`. */
    method Next()
      requires Valid()
      modifies this
      ensures Valid()
      ensures step == (if old(step) + 1 < TOTAL_STEPS then old(step) + 1 else TOTAL_STEPS)
      ensures form == old(form) && isSubmitting == old(isSubmitting) && isSuccess == old(isSuccess)
    {
      step := if step + 1 < TOTAL_STEPS then step + 1 else TOTAL_STEPS;
    }

    /** `handlePrev`: `Math.max(prev - 1, 1)`. */
    method Prev()
      requires Valid()
      modifies this
      ensures Valid()
      ensures step == (if old(step) - 1 > 1 then old(step) - 1 else 1)
      ensures form == old(form) && isSubmitting == old(isSubmitting) && isSuccess == old(isSuccess)
    {
      step := if step - 1 > 1 then step - 1 else 1;
    }

    /** `handleResumeUpload`: without a file nothing changes; with one, the
        resume and its name are set and every other field is kept. */
    method UploadResume(file: Option<FileInfo>)
      modifies this
      ensures file.None? ==> form == old(form)
      ensures file.Some? ==> form == old(form).(resume := file, resumeName := file.value.name)
      ensures step == old(step) && isSubmitting == old(isSubmitting) && isSuccess == old(isSuccess)
    {
      if file.Some? {
        form := form.(resume := file, resumeName := file.value.name);
      }
    }

    /** The consent checkbox flips `consentGiven`. */
    method ToggleConsent()
      modifies this
      ensures form == old(form).(consentGiven := !old(form).consentGiven)
      ensures step == old(step) && isSubmitting == old(isSubmitting) && isSuccess == old(isSuccess)
    {
      form := form.(consentGiven := !form.consentGiven);
    }

    /** The flags around the insert: `isSubmitting` is raised while it is in
        flight, success shows the confirmation, and `isSubmitting` is reset
        either way. */
    method TrackInsert(ok: bool)
      modifies this
      ensures isSuccess == (old(isSuccess) || ok) && !isSubmitting
      ensures step == old(step) && form == old(form)
    {
      isSubmitting := true;
      if ok {
        isSuccess := true;
      }
      isSubmitting := false;
    }

    /** `handleSubmit`: sends the submission built from the form; the insert
        produced `outcome`.  Success shows the confirmation, and
        `isSubmitting` is reset either way. */
    method Submit(id: string, pathname: string, outcome: Result<()>) returns (sent: Submission)
      modifies this
      ensures sent == BuildSubmission(old(form), id, pathname)
      ensures isSuccess == (old(isSuccess) || outcome.Ok?)
      ensures !isSubmitting
      ensures step == old(step) && form == old(form)
    {
      sent := AssembleSubmission(form, id, pathname);
      TrackInsert(outcome.Ok?);
    }
  }

  // ---- Properties of the wizard ----

  /** Exactly one of Continue and Submit is shown, Submit only at the last
      step; Previous is shown from the second step on. */
  lemma NavigationButtons(step: int)
    requires 1 <= step <= TOTAL_STEPS
    ensures ShowsContinue(step) != ShowsSubmit(step)
    ensures ShowsSubmit(step) <==> step == 4
    ensures ShowsPrevious(step) <==> step >= 2
  {
  }

  /** The last step is always valid; Submit is enabled only with consent and
      while no submission is in flight. */
  lemma SubmitGate(f: ApplicationForm, isSubmitting: bool)
    ensures StepValid(4, f)
    ensures !SubmitDisabled(isSubmitting, f) <==> !isSubmitting && f.consentGiven
  {
  }

  /** What each step demands, in terms of the fields: the name, email and
      resume name on step 1 must not be blank/empty, and so on. */
  lemma StepValidity(f: ApplicationForm)
    ensures StepValid(1, f) <==> !IsBlank(f.name) && !IsBlank(f.email) && f.resumeName != ""
    ensures StepValid(2, f) <==> !IsBlank(f.expertise) && f.experience != ""
    ensures StepValid(3, f) <==> f.workAuthorization != "" && f.consentGiven
  {
  }

  /** The empty form cannot leave the first step. */
  lemma EmptyFormBlocksContinue()
    ensures !ContinueEnabled(1, EMPTY_FORM)
  {
    assert IsBlank(EMPTY_FORM.name);
  }

  /** The message has the three fixed lines first and one more line per
      filled-in optional field; the resume line is there exactly when a
      resume name is set, and then it is last. */
  lemma MessageShape(f: ApplicationForm)
    ensures var ls := MessageLines(f);
      && ls[..3] == ["Expertise: " + f.expertise, "Experience: " + f.experience, "Work Auth: " + f.workAuthorization]
      && |ls| == 3 + (if f.linkedin != "" then 1 else 0) + (if f.portfolio != "" then 1 else 0) + (if f.resumeName != "" then 1 else 0)
      && (f.resumeName != "" ==> ls[|ls| - 1] == "Resume attached: " + f.resumeName)
  {
  }

  /** When no field holds a new line, splitting the message on new lines
      gives its lines back. */
  lemma MessageSplits(f: ApplicationForm)
    requires '\n' !in f.expertise && '\n' !in f.experience && '\n' !in f.workAuthorization
    requires '\n' !in f.linkedin && '\n' !in f.portfolio && '\n' !in f.resumeName
    ensures Split(JoinLines(MessageLines(f)), '\n') == MessageLines(f)
  {
    var ls := MessageLines(f);
    var fixed := ["Expertise: " + f.expertise, "Experience: " + f.experience, "Work Auth: " + f.workAuthorization];
    var linkedin := if f.linkedin != "" then ["LinkedIn: " + f.linkedin] else [];
    var portfolio := if f.portfolio != "" then ["Portfolio: " + f.portfolio] else [];
    var resume := if f.resumeName != "" then ["Resume attached: " + f.resumeName] else [];
    assert ls == fixed + linkedin + portfolio + resume;
    assert LinesFree(fixed, '\n') && LinesFree(linkedin, '\n') && LinesFree(portfolio, '\n') && LinesFree(resume, '\n');
    LinesFreeConcat(fixed, linkedin, '\n');
    LinesFreeConcat(fixed + linkedin, portfolio, '\n');
    LinesFreeConcat(fixed + linkedin + portfolio, resume, '\n');
    SplitJoin(ls, '\n');
  }

  /** `source_type` and `source_id`: the general application has no source
      id; any other application carries the route id and is a student
      program exactly when the path has `/students/`. */
  lemma SourceOfSubmission(f: ApplicationForm, id: string, pathname: string)
    ensures BuildSubmission(f, id, pathname).sourceId.None? <==> id == "general"
    ensures id != "general" ==> BuildSubmission(f, id, pathname).sourceId == Some(id)
    ensures BuildSubmission(f, id, pathname).sourceType == "student_program" <==>
      id != "general" && Contains(pathname, "/students/")
    ensures BuildSubmission(f, id, pathname).sourceType == "general_application" <==> id == "general"
  {
  }

  /** An empty phone is sent as null; the email as typed. */
  lemma PhoneAndEmail(f: ApplicationForm, id: string, pathname: string)
    ensures BuildSubmission(f, id, pathname).phone == (if f.phone == "" then None else Some(f.phone))
    ensures BuildSubmission(f, id, pathname).email == f.email
  {
  }
}
